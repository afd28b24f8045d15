# The durable triage-and-approval workflow, verified

A security alert is triaged by a bounded loop: an untrusted reasoner asks for evidence, an
authorization gateway admits or refuses each call, a deterministic policy turns the reasoner's
candidate into an enforced result, and reviewers decide on the actions that result recommends
before an executor is given any of them. Every step is a transaction over one shared store with
an append-only audit; a recovery service fails what was abandoned. This project models that
workflow and proves what it promises, over every run, every interleaving and every fault.

## How the model is laid out

- **Encodings.** `Base`, `Json`, `Timestamps`, `Entities`, `Actions`, `Identifiers`: the texts
  (digests, fingerprints, scope keys, stored times, generated identifiers) that stand in for an
  equality or an order, each proved to agree with it.
- **Decisions.** `Triage`, `Policy`, `Gateway`, `Fixtures`: result validation, the policy loop with
  its identifier factory, the gateway's mutable accounting, the fixture validator and its tools.
- **The store.** `Store` (tables, constraints, atomic commit), `Queries` (ordered listings over
  textual times), `Workflow` (what each transaction reads and stages), `Effects` (what each
  transaction does when it commits).
- **Histories.** `History` plays any sequence of transactions. Each may read any earlier committed
  state, may be lost to a fault at any stage, and action rows may be rewritten in between.
  `Approvals`, `Results` and `Recovery` are properties of all such histories.
- **The system.** `Orchestration` is one run as a machine, one step for each wait or transaction,
  and `Exits` says when it comes to each phase. `System` interleaves any number of runs, reviews,
  executions, recovery passes, crashes and clock ticks; `Moves` says what each of its steps commits.
  `Idempotency`, `Lockstep`, `Provenance`, `Executions`, `Escapes` and `Timing` hold in every state
  it reaches.
- **The services.** `Orchestrator`, `ApprovalService` and `Recovery.StaleStateRecoveryService` are the
  classes with their loops, units of work and exits. `Orchestrator.TriageOrchestrator.Run` is proved
  to walk the run machine, `Outcomes` explains every outcome by a step of the walk, and `Refinement`
  composes whole runs, executions, decisions and recovery passes into reachable states of the system.
- **Traces.** `Stages` takes a run alone from phase to phase within the limits of its waits,
  `Deployment` makes a small deployment, and `Overruns`, `Overwrites` and `LateResults` reach the
  states that show which bounds are attained and what late completions overwrite.

## Premises

- Execution identifiers are generated Identifiers, fresh where a theorem says so;
  `Idempotency.LoserChangesWinnerExactly` says exactly what happens otherwise. Generated action identifiers are
  fresh in `Policy.FallbackExactly` and the policy's rule; `Identifiers.SequenceIdsFresh` proves it of the
  counting generator.
- SHA-256 is an arbitrary function, assumed free of collisions only where `Injective` is required.
- The at-most-once, approval, audit and idempotency theorems allow stale reads and rewritten action rows.
  `Results.StatesMatchInEveryHistory` needs failing transactions to read the current state;
  `Results.ActionsMatchInEveryHistory` needs action rows not to be rewritten.
- The timing theorems assume what `Timing.Punctual` lists: no wait outlasts its limit, a recovery pass uses a
  threshold of at least the run bound and a clock that is not ahead, execution identifiers are fresh.

## Where the code falls short of its promise

- **A run can end without an outcome.** `AuthorizedToolTarget.from_scope_key` raises for an IP address with a zone
  mark or a leading colon, such as `::1` (`Entities.FromScopeKeyTotality`). With reasoner guidance on, the
  exception leaves `run` and the row stays RUNNING until recovery; so would that of evidence whose versions or
  status do not fit their fields. `Escapes.RunEscapesExactly` is the exact condition over both,
  `Escapes.OnlyContextsRaise` excludes the second for outcomes as the gateway validates them, and
  `Escapes.LoopbackStranded` is a run left RUNNING.
- **The address tool raises on addresses it does not list** when they are not Identifiers, `::1` among them: its
  NOT_FOUND answer names the address in an Identifier field, so the gateway records an adapter failure.
  `Fixtures.IpReputationExact` is the exact condition.
- **A key with surrounding white space is never replayed.** Keys are looked up as they are sent and stored
  stripped. `Idempotency.ReplayExactly` and `Idempotency.StoredKeyNeverStarts` say what a retry then does.
- **A repeated decision can conflict with itself.** The record stores stripped texts and compares them with the
  raw ones; `Approvals.DecisionRetry` is the exact condition, `Approvals.PaddedReasonConflicts` an instance.
- **A losing start can fail its winner** when both carry the same execution id;
  `Idempotency.LoserChangesWinnerExactly` is the exact condition.
- **Completion does not look at the state it leaves.** `_persist_final` and the completion of an execution overwrite
  a row that recovery has failed. `Results.FinalFollowsTableExactly` and `Approvals.FinishFollowsTableExactly` say
  when the transition tables are respected; `LateResults` reaches both overwrites from an empty system, and
  `Overwrites` from every state in which a completion is next. `Timing.FailedIsPermanent` says what excludes them.
- **The run bound.** Deadline, tool cap and three transactions do not bound a run: reading the clock in whole
  milliseconds adds up to 999 microseconds, and `Overruns.BoundAttained` takes all of them. Recording a failed
  finalization takes one transaction more, which `Overruns.BoundPassed` takes too; by `Timing.RunFinishesInTime`
  nothing else does.
- **The sign-in tool can raise on an accepted dataset** when its window reaches before year 1:
  `Fixtures.RecentSignInsExact` is the exact condition, `Fixtures.EarliestWindowRaises` a dataset.

## Model

| member | source | states |
|---|---|---|
| `Base.IdentifierIsStripped` | src/security_triage_agent/domain/_base.py:12-57 | text that meets the identifier pattern is already stripped, so parsing an identifier again changes nothing |
| `Base.IdentifierMeaning` | src/security_triage_agent/domain/_base.py:10-18 | an identifier is one to 128 letters, digits, hyphens, dots, slashes, colons and underscores, beginning with a letter or digit |
| `Base.StripMeaning` | src/security_triage_agent/domain/_base.py:10-32 | what is stripped from a text is white space at its two ends, all of it and nothing else |
| `Base.SizesAgreeMeansDistinct` | src/security_triage_agent/domain/triage.py:88-91 | comparing the size of the set with the length of the list decides whether every value is different |
| `Json.CanonDecidesSame` | src/security_triage_agent/domain/actions.py:54-60 | sorting the members of every object gives equal trees exactly for trees that agree up to member order |
| `Json.CanonSorts` | src/security_triage_agent/domain/actions.py:54-60 | the canonical tree is sorted at every level and agrees with the original up to member order |
| `Json.StringRead` | src/security_triage_agent/domain/actions.py:54-60 | a quoted string reads back as the string, short escapes, code units and surrogate pairs included, in either character set |
| `Json.CompactMeaning` | src/security_triage_agent/domain/actions.py:54-60 | the text of a value is that of the JSON grammar without white space: words and digits denote their value, strings read back, containers list their texts between commas |
| `Json.CompactInjective` | src/security_triage_agent/domain/actions.py:54-60 | the compact text, escapes and surrogate pairs included, determines the tree |
| `Json.CanonicalTextFaithful` | src/security_triage_agent/domain/actions.py:54-60 | two JSON trees have the same sorted compact text if and only if they agree up to the order of object members |
| `Actions.ThawFreeze` | src/security_triage_agent/domain/actions.py:122-143 | thawing a frozen tree gives the tree back, and freezing leaves nothing mutable inside |
| `Actions.FreezeThaw` | src/security_triage_agent/domain/actions.py:122-143 | freezing a thawed tree gives the frozen tree back, so both directions are inverse |
| `Actions.CanonicalizeKeepsContent` | src/security_triage_agent/domain/actions.py:41-45 | a canonical proposal is the recommendation under its new identifier: same catalog id, target, parameters and rationale |
| `Actions.MaterialTreeMembers` | src/security_triage_agent/domain/actions.py:47-61 | the hashed tree has catalog id, parameters and target and the target its type and identifier, under their names, and nothing else |
| `Actions.PreHashFaithful` | src/security_triage_agent/domain/actions.py:47-61 | the text under the digest is equal if and only if catalog id, target and parameters (up to member order) are |
| `Actions.DigestFaithful` | src/security_triage_agent/domain/actions.py:47-61 | equal material has equal digests; equal digests mean equal material for a hash without collisions; a digest is the hash after `sha256:` |
| `Actions.ActionLifecycles` | src/security_triage_agent/domain/actions.py:94-119 | a path of the table from PROPOSED that goes no further is one of five: executed only from APPROVED, and never left once rejected, expired, succeeded or failed |
| `Actions.TriageLifecycles` | src/security_triage_agent/domain/states.py:20-47 | an execution runs once and is completed, failed or given to a review, and the table has no other path |
| `Timestamps.ChronologicalOrder` | src/security_triage_agent/domain/_base.py:37-45 | field-wise order of calendar times is the order of instants, over leap years and all month lengths |
| `Timestamps.MonthFormula` | src/security_triage_agent/domain/_base.py:37-45 | the days before each month follow the rule of 153 days in five months, counted from March |
| `Timestamps.IsoTextReads` | src/security_triage_agent/adapters/persistence/repositories.py:140-149 | the stored text reads back: each field at its place with its separator, a six-digit fraction unless it is zero, and the UTC offset |
| `Timestamps.TextOrderIsChronological` | src/security_triage_agent/adapters/persistence/repositories.py:140-149 | the stored text of one UTC time is less than another's exactly when the time is earlier, fraction absent or present |
| `Timestamps.StoredTextOrder` | src/security_triage_agent/adapters/persistence/repositories.py:349-360 | the same for every instant the clock can give: the text comparison in a query is the time comparison |
| `Store.ApprovalChecksMeaning` | src/security_triage_agent/adapters/persistence/models.py:84-94 | the two CHECK constraints accept a decision exactly when an approval expires later than it was decided, as a comparison of times, and a rejection has no expiry |
| `Entities.ScopeKeyInjective` | src/security_triage_agent/domain/entities.py:19-49 | scope keys are equal only for equal references |
| `Entities.FromScopeKeyInverts` | src/security_triage_agent/application/orchestration_contracts.py:47-50 | parsing a key at its first colon gives the reference back if and only if its text meets the identifier pattern, and raises otherwise |
| `Entities.FromScopeKeyTotality` | src/security_triage_agent/application/orchestration_contracts.py:47-50 | so users and devices always parse, and an IP address parses exactly when it has no zone mark and does not begin with a colon |
| `Entities.LoopbackKeyRaises` | src/security_triage_agent/application/orchestration_contracts.py:47-50 | a concrete valid reference, ::1, whose key does not parse |
| `Entities.ShownTargetsAreAdmitted` | src/security_triage_agent/application/orchestrator.py:129-136 | the targets shown to the reasoner are exactly the references whose keys the gateway admits, whenever showing them does not raise |
| `Identifiers.SequenceIdInjective` | src/security_triage_agent/application/orchestration_contracts.py:130-133 | generated identifiers are equal only for the same purpose and count, though purposes may contain hyphens and the padding may be exceeded |
| `Identifiers.SequenceIdFormat` | src/security_triage_agent/application/orchestration_contracts.py:130-133 | an identifier is its purpose, a hyphen, and its count in at least four digits |
| `Identifiers.SequenceIdsFresh` | src/security_triage_agent/application/orchestration_contracts.py:130-133 | the identifiers one generator issues meet the freshness premise of the policy |
| `Identifiers.SequenceIdentifierGenerator.NextId` | src/security_triage_agent/application/orchestration_contracts.py:126-133 | an issued identifier was never issued before, and only it becomes issued |
| `Triage.ValidResultMeaning` | src/security_triage_agent/domain/triage.py:53-91 | a result validates exactly when only escalations have a reason, no evidence, tool call, action or reference id repeats, tool evidence names a listed call, and each required approval carries the digest of the recommended action it names |
| `Triage.ProposalForDistinct` | src/security_triage_agent/domain/triage.py:65-80 | with distinct ids the dictionary lookup finds exactly the action with the id |
| `Policy.BuildCatalog` | src/security_triage_agent/application/action_catalog.py:62-74 | construction succeeds exactly for well-formed definitions with different ids whose high-impact actions require approval, and the catalog then holds each of them and nothing else |
| `Policy.CatalogAlwaysRequiresApproval` | src/security_triage_agent/application/action_catalog.py:62-74 | no action of a valid catalog escapes approval |
| `Policy.ScreenRecommendation` | src/security_triage_agent/application/policy.py:102-134 | one turn of the loop adds either one rejection and its reason or one action under the next identifier, which alone is drawn |
| `Policy.Evaluate` | src/security_triage_agent/application/policy.py:86-181 | the loop with its identifier factory computes the specified decision for every stream of identifiers |
| `Policy.AcceptedInOrder` | src/security_triage_agent/application/policy.py:102-134 | the accepted actions are the passing recommendations in their order, the k-th under the k-th identifier |
| `Policy.RejectedInOrder` | src/security_triage_agent/application/policy.py:102-134 | the rejections are the failing recommendations in their order |
| `Policy.ReasonsAreRejections` | src/security_triage_agent/application/policy.py:97-127 | the collected reasons are the initial one followed by those of the rejections, in order |
| `Policy.ApprovalsInOrder` | src/security_triage_agent/application/policy.py:128-134 | exactly the accepted actions that require approval get a reference, in order, with their digest |
| `Policy.ScreenMeaning` | src/security_triage_agent/application/policy.py:103-118 | no reason is given exactly when all four checks hold, and the reason given is the first check that does not |
| `Policy.EvaluationPartitions` | src/security_triage_agent/application/policy.py:94-181 | accepted actions and rejections share out the recommendations in order: acceptance exactly on passing all checks, rejection with the first failing check |
| `Policy.EvaluationFollowsRule` | src/security_triage_agent/application/policy.py:136-181 | review is forced exactly by a rejection or a non-review disposition without evidence; reason codes are non-empty, distinct, in the order their reasons arose, ACCEPTED only alone; severity, confidence, summary, evidence and calls are the candidate's and the timestamp the given one; the escalation reason is the sorted names of the distinct reasons when forced, the candidate's own or the default when only requested, none otherwise; approvals are those required |
| `Policy.EscalationMeaning` | src/security_triage_agent/application/policy.py:136-156 | the text of a forced review names every reason once, in ascending order, between commas |
| `Policy.EvaluationAlwaysValid` | src/security_triage_agent/application/policy.py:158-221 | whatever the candidate and the identifiers, the decision carries a result that validates, for the same alert |
| `Policy.FallbackExactly` | src/security_triage_agent/application/policy.py:158-221 | with fresh identifiers the CANDIDATE_INVALID fallback is taken if and only if evidence ids or call ids repeat or evidence cites an unlisted call, and it is a review with no confidence, evidence, calls or actions that says so |
| `Gateway.BuildRegistry` | src/security_triage_agent/application/tool_registry.py:32-45 | construction succeeds exactly for differently named, approved, read-only tools with a positive timeout, and registers each of them |
| `Gateway.BuiltRegistryValid` | src/security_triage_agent/application/tool_registry.py:32-45 | such a registry meets the premise of the accounting theorems when its request models dump text fields |
| `Gateway.FingerprintFaithful` | src/security_triage_agent/application/tool_gateway.py:260-263 | fingerprints are equal exactly for the same tool and the same arguments up to member order |
| `Gateway.RequestKeyExactly` | src/security_triage_agent/application/tool_gateway.py:265-273 | arguments have the key of an entity exactly when they name it: a user, or a device and no user, or an address and neither; and none exactly when they name no entity |
| `Gateway.InScopeExactly` | src/security_triage_agent/application/tool_gateway.py:61-67 | a call is in scope exactly when the entity its arguments name is one of the alert's entities |
| `Gateway.ToolExecutionContext.InvokeTool` | src/security_triage_agent/application/tool_gateway.py:142-249 | one call changes the accounting exactly as the specification of a call says, on all its exits |
| `Gateway.InvokeAccounted` | src/security_triage_agent/application/tool_gateway.py:142-249 | a call keeps the whole accounting invariant and adds exactly one record |
| `Gateway.InvokeRecords` | src/security_triage_agent/application/tool_gateway.py:148-179 | the new record and the result agree, SUCCESS is only ever given to an allowed call, and exactly allowed calls are charged |
| `Gateway.InvokeExactly` | src/security_triage_agent/application/tool_gateway.py:142-249 | the whole answer of one call: who, what and when on record, the code of the first failed check and the arguments as far as validated when refused, the tool's end case by case when allowed, a result only with SUCCESS |
| `Gateway.EveryCallSequenceAccounted` | src/security_triage_agent/application/tool_gateway.py:107-249 | over every sequence of calls: total = size of the seen set = sum of the per-tool counts = allowed records, each tool's count is its seen fingerprints, both limits hold, allowed calls are in scope and pairwise different, one record a call |
| `Gateway.AllowedAboutEntities` | src/security_triage_agent/application/tool_gateway.py:142-249 | over every sequence of calls, every allowed call was about one of the alert's entities |
| `Gateway.AdmitRefinesRecords` | src/security_triage_agent/application/tool_gateway.py:181-211 | the fast admission by scope keys, counters and fingerprints admits a call exactly when it passes all eight checks read off the alert's entities and the records, and refuses it with the code of the first it fails |
| `Store.UnitOfWork.Commit` | src/security_triage_agent/adapters/persistence/uow.py:101-108 | all the writes or none, constraints and faults included, and nothing stays staged |
| `Store.ApplyAllGrows` | src/security_triage_agent/adapters/persistence/repositories.py:363-385 | committed writes only append to the audit and never remove or re-own a row |
| `Store.ApplyAllConsistent` | src/security_triage_agent/adapters/persistence/models.py:25-117 | unique keys, primary keys and references survive every commit |
| `Store.FoldAppend` | src/security_triage_agent/application/orchestrator.py:568-588 | one more audit event changes the reported state of its own target and of no other |
| `Queries.ListingUnique` | src/security_triage_agent/adapters/persistence/repositories.py:140-149 | at most one list is in the query's order, so the order of a listing is no choice |
| `Queries.OrderRows` | src/security_triage_agent/adapters/persistence/repositories.py:140-149 | the rows in a total order, each once |
| `Queries.RunQueryExact` | src/security_triage_agent/adapters/persistence/repositories.py:140-149 | comparing stored texts selects and orders exactly as comparing times: the same rows in the same order, for every cutoff |
| `Queries.ActionQueryExact` | src/security_triage_agent/adapters/persistence/repositories.py:349-360 | the same for the query over action executions |
| `Queries.ListRunningBefore` | src/security_triage_agent/adapters/persistence/repositories.py:140-149 | lists each overdue run once, oldest first |
| `Queries.ListExecutingBefore` | src/security_triage_agent/adapters/persistence/repositories.py:349-360 | lists each overdue action execution once, oldest first |
| `Effects.ActionWritesApply` | src/security_triage_agent/application/orchestrator.py:406-414 | the result's actions can be added exactly when their ids are new and different, and then each has its row |
| `Effects.WithActionsRows` | src/security_triage_agent/application/orchestrator.py:406-414 | afterwards each action has its row under this run and every other row is as before |
| `Effects.RunRecoveryApplies` | src/security_triage_agent/application/recovery_service.py:57-79 | the recovery loop's writes always apply and fail the listed runs with one event each |
| `Effects.ActionRecoveryApplies` | src/security_triage_agent/application/recovery_service.py:90-120 | the recovery loop's writes always apply and expire the listed executions with one event each |
| `Effects.AttemptEffect` | src/security_triage_agent/application/orchestrator.py:273-513 | every transaction attempted against any earlier snapshot either leaves the store as it was or has exactly its described effect |
| `Effects.DurableExactly` | src/security_triage_agent/application/orchestrator.py:273-513 | a transaction becomes durable if and only if no fault prevents it and the current state accepts it, guard by guard for every kind |
| `History.EffectAgrees` | src/security_triage_agent/application/orchestrator.py:273-513 | every kind of transaction keeps audit and tables in agreement |
| `History.ReadsAnyCommit` | src/security_triage_agent/adapters/persistence/uow.py:101-108 | a transaction may have read any earlier committed state, and is then durable exactly when no fault stops it and the current state accepts its writes |
| `History.EveryHistorySound` | src/security_triage_agent/application/approval_service.py:83-283 | in every interleaving with faults, stale reads and rewritten action rows: folding the audit gives the stored state of every run, approval and action execution; constraints hold; tables only grow |
| `Approvals.BeginsClears` | src/security_triage_agent/application/approval_service.py:160-223 | the execute checks pass if and only if the action is approved for exactly this digest and policy version by an authorized reviewer, unexpired, recommended, catalogued and simulated |
| `Approvals.EveryHistoryGoverned` | src/security_triage_agent/application/approval_service.py:83-223 | in every history each decision binds what its reviewer saw and each execution row was cleared when it began |
| `Approvals.DecisionMeaning` | src/security_triage_agent/application/approval_service.py:83-144 | a decision, approval or rejection, gets a record exactly when the reviewer is authorized, the action stored, its approval required, undecided, and texts and expiry fit; every field of the record; the same decision again gets the record there is; the code of a refusal is that of the first unmet requirement |
| `Approvals.ExecutionsAreJustified` | src/security_triage_agent/application/approval_service.py:83-223 | behind every execution row stands exactly one decision: an approval by an authorized reviewer, of equal digest and version, started before decided_at plus the lifetime; even when action rows are rewritten |
| `Approvals.ExecutedMaterialWasDecided` | src/security_triage_agent/application/approval_service.py:83-223 | the catalog id, target and parameters that were executed are those that were decided on, for a hash without collisions |
| `Approvals.RejectedNeverExecuted` | src/security_triage_agent/application/approval_service.py:160-223 | an action rejected at any time has no execution row at any time, before or after |
| `Approvals.NoSecondExecution` | src/security_triage_agent/adapters/persistence/models.py:107-117 | against any stale snapshot, a second execution row for an action aborts its transaction |
| `Approvals.DecisionRetry` | src/security_triage_agent/application/approval_service.py:97-105 | repeating a recorded decision returns it if and only if the reviewer id and reason were already stripped, and conflicts otherwise |
| `Approvals.PaddedReasonConflicts` | src/security_triage_agent/application/approval_service.py:97-105 | a concrete repeat that conflicts: the reason `confirmed` followed by a space |
| `Approvals.OtherDecisionRefused` | src/security_triage_agent/application/approval_service.py:97-105 | a different decision, reviewer or reason is refused and writes nothing |
| `Approvals.FinishFollowsTableExactly` | src/security_triage_agent/application/approval_service.py:225-283 | completion follows the action lifecycle table exactly when the row is still EXECUTING; it overwrites the row otherwise |
| `ApprovalService.ApprovalService.Decide` | src/security_triage_agent/application/approval_service.py:83-144 | the method returns and stores what the decision's meaning says, in one transaction |
| `ApprovalService.DecideExactly` | src/security_triage_agent/application/approval_service.py:83-144 | what a decision returns and stores: the record and its event together, or nothing, by the request, the rows and the fault alone |
| `Approvals.DenialMeaning` | src/security_triage_agent/application/approval_service.py:160-187 | an execution is denied exactly when some requirement is not met, and the code names the first that is not: recommended, needs approval, simulated, decided, approved, unexpired, binding, authorized |
| `ApprovalService.ApprovalService.Execute` | src/security_triage_agent/application/approval_service.py:146-258 | the two transactions around the effect, their faults and the executor's reply give the result, the store and the proposals handed to the executor |
| `ApprovalService.ExecuteExactly` | src/security_triage_agent/application/approval_service.py:146-283 | what an execution returns, stores and hands over in every case: refusal, completed before, denial with its event, and, once the executor is reached, the exact row for a return, a raise and a lost ending |
| `ApprovalService.ApprovalService.RunEffect` | src/security_triage_agent/application/approval_service.py:225-283 | the executor is given the persisted proposal once, after the first commit, and the outcome is recorded |
| `ApprovalService.RetryNeverReachesExecutor` | src/security_triage_agent/application/approval_service.py:150-159 | with an execution row in any state, a call never reaches the executor and changes no execution row |
| `ApprovalService.ReachingExecutorLeavesRow` | src/security_triage_agent/application/approval_service.py:188-223 | a call that reaches the executor had no row before, was cleared, hands over the stored proposal and leaves a row whatever fails later |
| `Results.StatesMatchInEveryHistory` | src/security_triage_agent/application/orchestrator.py:388-502 | in every store of every history whose failing transactions read the current state, rewritten action rows included: a result row exists iff the state is COMPLETED or NEEDS_REVIEW, the state follows the disposition, and final rows never change |
| `Results.ActionsMatchInEveryHistory` | src/security_triage_agent/application/orchestrator.py:402-414 | in every store of every history without rewritten rows, whatever was read, the action rows are exactly the recommended actions of the results |
| `Results.StaleFailureExactly` | src/security_triage_agent/application/orchestrator.py:471-502 | a failure record written from a stale read keeps results and states matched if and only if there is no result yet |
| `Results.FinalFollowsTableExactly` | src/security_triage_agent/application/orchestrator.py:402-417 | finalization follows the transition table exactly when the row is RUNNING; the one other state it can find is FAILED |
| `Recovery.RunRecoveryPass` | src/security_triage_agent/application/recovery_service.py:51-82 | a pass is all or nothing: exactly the stale runs fail, other rows stay, one event per recovered run |
| `Recovery.SecondRunPass` | src/security_triage_agent/application/recovery_service.py:51-82 | a second pass at the same clock finds nothing and changes nothing |
| `Recovery.ActionRecoveryPass` | src/security_triage_agent/application/recovery_service.py:84-123 | the same for stale action executions |
| `Recovery.SecondActionPass` | src/security_triage_agent/application/recovery_service.py:84-123 | the same for a second pass over action executions |
| `Recovery.StaleStateRecoveryService.RecoverStaleExecutions` | src/security_triage_agent/application/recovery_service.py:51-82 | query, loop and commit achieve the pass; the returned count is the number of events added |
| `Recovery.StaleStateRecoveryService.FailRuns` | src/security_triage_agent/application/recovery_service.py:57-79 | the loop over the stale runs stages exactly the pass |
| `Recovery.StaleStateRecoveryService.RecoverStaleActions` | src/security_triage_agent/application/recovery_service.py:84-123 | query, loop and commit achieve the pass; the returned count is the number of events added |
| `Recovery.StaleStateRecoveryService.FailActions` | src/security_triage_agent/application/recovery_service.py:90-120 | the loop over the stale action executions stages exactly the pass |
| `Orchestration.ReferencesExactly` | src/security_triage_agent/application/orchestrator.py:558-566 | a candidate's references check out exactly when each item and call it cites is, whole, an accumulated one that no later one replaced |
| `Orchestration.EvaluationCites` | src/security_triage_agent/application/orchestrator.py:558-566 | a decision on a candidate whose references check out cites only accumulated items, whole |
| `Exits.EntersExactly` | src/security_triage_agent/application/orchestrator.py:101-105 | a run enters with the replay of its key and its result if it has one, a failed lookup, or a start |
| `Exits.ThinksExactly` | src/security_triage_agent/application/orchestrator.py:119-151 | the reasoner is asked exactly from a head with time left whose context can be built and fits |
| `Exits.CallsExactly` | src/security_triage_agent/application/orchestrator.py:189-198 | a tool is called exactly when the reasoner asks for it, as it asks |
| `Exits.PersistsExactly` | src/security_triage_agent/application/orchestrator.py:189-203 | a call is recorded exactly when it was made, with what was asked, when it began and ended, and the gateway's whole answer |
| `Exits.DecidesExactly` | src/security_triage_agent/application/orchestrator.py:165-242 | a candidate goes to the policy exactly when everything it cites was accumulated, and the reason follows the decision's disposition |
| `Exits.StopsExactly` | src/security_triage_agent/application/orchestrator.py:119-220 | for each of the eight terminations: a step leads to it if and only if it has that cause, and then to a review that saw no candidate |
| `Exits.ContinuesExactly` | src/security_triage_agent/application/orchestrator.py:107-119 | an iteration begins exactly after a durable start, or after a durable success with room, evidence and iterations left, with that evidence added |
| `Exits.RecordsExactly` | src/security_triage_agent/application/orchestrator.py:273-461 | a failure is recorded exactly after a start or tool record that is not durable or a failed final commit, under the category of each |
| `Exits.EndsExactly` | src/security_triage_agent/application/orchestrator.py:231-242 | a run returns exactly on entry, after a final commit that is durable or finds no row, or after recording a failure, and only a durable one has a result |
| `Outcomes.FinalizesExactly` | src/security_triage_agent/application/orchestrator.py:218-242 | over a whole run: a decision is about to be committed exactly when the step before came to it, for its cause |
| `Outcomes.ReasonedEnds` | src/security_triage_agent/application/orchestrator.py:231-242 | and the run then returns that decision's result with that reason exactly when the commit is durable |
| `Outcomes.EveryOutcomeExplained` | src/security_triage_agent/application/orchestrator.py:93-271 | every outcome has its cause at one step of the run: a stored replay on entry, a decision whose commit became durable, or nothing durable |
| `Outcomes.RunExplained` | src/security_triage_agent/application/orchestrator.py:93-271 | so it is with what `run` returns |
| `System.ReachableSound` | src/security_triage_agent/application/orchestrator.py:93-242 | in every reachable state of the interleaved system the store's history is one of the histories above |
| `System.ReachableMatched` | src/security_triage_agent/application/orchestrator.py:388-502 | both at every commit of every reachable state of the interleaved system, under what each needs |
| `Idempotency.OneDriverPerKey` | src/security_triage_agent/adapters/persistence/models.py:25-36 | of all runs whose keys parse to the same identifier, at most one ever gets past its start to the reasoner or gateway, under stale lookups too |
| `Idempotency.DriversMissNone` | src/security_triage_agent/application/orchestrator.py:119-198 | every run that has asked its reasoner or its gateway is in the log that `OneDriverPerKey` is about |
| `Idempotency.RunTouchesOnlyItself` | src/security_triage_agent/application/orchestrator.py:273-513 | a run's transactions leave every other execution, its result, actions and tool calls as they are |
| `Idempotency.LoserCommitsNothing` | src/security_triage_agent/application/orchestrator.py:273-327 | a start whose key does not parse, or parses to a stored one, commits nothing |
| `Idempotency.LoserChangesWinnerExactly` | src/security_triage_agent/application/orchestrator.py:463-502 | the failure it then records marks the winner FAILED if and only if it carries the winner's own execution id, no fault prevents it and the winner was RUNNING in the state read; otherwise the winner is untouched |
| `Idempotency.ReplayIsStable` | src/security_triage_agent/application/orchestrator.py:244-258 | once a key's result is stored, every later store answers its lookup with that same result |
| `Idempotency.ReplayExactly` | src/security_triage_agent/application/orchestrator.py:101-103 | a run that enters after a durable result under what its raw key parses to ends with exactly that result if and only if the key was already stripped; otherwise it goes on to start |
| `Idempotency.StoredKeyNeverStarts` | src/security_triage_agent/application/orchestrator.py:273-327 | such a start never commits: it records a failure and never a replay |
| `Idempotency.NoBreakSpaceKeyIsStripped` | src/security_triage_agent/domain/_base.py:12-20 | a concrete key, ending in a no-break space, that is stored without it |
| `Lockstep.RunAccountedNext` | src/security_triage_agent/application/orchestrator.py:119-220 | every step of a run keeps iteration, evidence, gateway accounting and limits in step |
| `Lockstep.RunPacedNext` | src/security_triage_agent/application/orchestrator.py:119-220 | every step of a run keeps its durable tool rows equal to its records and its decision supported by them |
| `Provenance.LoopInLockstep` | src/security_triage_agent/application/orchestrator.py:119-220 | at the head of iteration i: evidence = calls = records = persisted rows = i-1, all SUCCESS, and below every limit |
| `Provenance.ResultsRestOnRows` | src/security_triage_agent/application/orchestrator.py:532-566 | every evidence item and tool call of every committed result, for an arbitrary reasoner, matches a SUCCESS, ALLOWED row of the same execution whose arguments name an entity of its alert |
| `Provenance.RowsComeFirst` | src/security_triage_agent/application/orchestrator.py:388-442 | a step that adds a result is a step of the run that owns it, and the rows the result rests on were committed before that step |
| `Provenance.OtherStepsAddNoRows` | src/security_triage_agent/application/orchestrator.py:329-366 | nobody but a run adds tool rows |
| `Provenance.FailedCallIsLast` | src/security_triage_agent/application/orchestrator.py:204-214 | once a call that is not SUCCESS has its row, no step of anyone adds another tool row of its execution |
| `Escapes.RunEscapesExactly` | src/security_triage_agent/application/orchestrator.py:119-214 | a step of a run ends it without an outcome if and only if building its context raises (guidance on, deadline not passed, an entity that is not an Identifier) or building its evidence does (a durable success with room for it, whose versions or status do not fit) |
| `Escapes.EvidenceExactly` | src/security_triage_agent/application/orchestrator.py:532-557 | what evidence is made of: the call, its tool and times, the versions and status as they stand in the outcome, or their defaults |
| `Escapes.EvidenceFailsExactly` | src/security_triage_agent/application/orchestrator.py:532-557 | evidence cannot be built exactly when a version strips to nothing or to more than 64 characters, or the status leaves no room in a summary of 512 |
| `Escapes.OnlyContextsRaise` | src/security_triage_agent/application/orchestrator.py:119-214 | for tool outcomes as the gateway validates them, only the context raises |
| `Escapes.EscapeKeepsRows` | src/security_triage_agent/application/orchestrator.py:119-214 | such a step leaves every execution its row and its result |
| `Escapes.RunStranded` | src/security_triage_agent/application/orchestrator.py:93-147 | with guidance on, from every reachable state, a run on an alert with such an entity that is given its start comes to end without an outcome, its row RUNNING and without a result |
| `Escapes.LoopbackStranded` | src/security_triage_agent/application/orchestrator.py:93-147 | the first run of any such deployment, on an alert about ::1, is one |
| `Executions.ExecutorAtMostOnce` | src/security_triage_agent/application/approval_service.py:146-258 | over every reachable state the executor was given each action at most once: concurrent callers, stale reads, crashes and retries included |
| `Executions.SucceededMeansReturnedOnce` | src/security_triage_agent/application/approval_service.py:225-258 | a SUCCEEDED row means the executor was called and returned normally exactly once |
| `Executions.ExecutorOnlyGetsCleared` | src/security_triage_agent/application/approval_service.py:160-231 | whatever the executor was given was a stored proposal cleared at that start |
| `Timing.RunFinishesInTime` | src/security_triage_agent/application/orchestrator.py:115-157 | a run drives for at most deadline + tool cap + 3 transactions + 999 microseconds after its stored time, and records any failure within that bound except a failed finalization, which may take one transaction more |
| `Timing.RecoverySelectsAbandoned` | src/security_triage_agent/application/recovery_service.py:52-56 | with a threshold of at least that bound recovery selects no run that is still being driven, stale reads included |
| `Timing.FailedIsPermanent` | src/security_triage_agent/application/orchestrator.py:402-417 | under the same premises no step of anyone takes an execution out of FAILED |
| `Overruns.BoundAttained` | src/security_triage_agent/application/orchestrator.py:115-157 | the bound is attained: a punctual run still drives at its last microsecond, the loss of the whole-millisecond clock included |
| `Overruns.BoundPassed` | src/security_triage_agent/application/orchestrator.py:443-461 | and passed: a punctual run whose final commit fails records that one transaction after the bound |
| `Overruns.SceneExists` | src/security_triage_agent/application/orchestrator.py:93-242 | for every deadline, cap and transaction time with room on the clock there is a deployment and a run, under any key, that do both |
| `Overwrites.LateFinalOverwrites` | src/security_triage_agent/application/orchestrator.py:402-417 | from every reachable state with a run whose accepted final commit is next and whose row a recovery pass finds: the pass takes the row to FAILED and the commit from there to the state of its result |
| `Overwrites.SuccessAfterFailure` | src/security_triage_agent/application/approval_service.py:225-258 | from every reachable state with an undecided action that somebody may approve: an execution row goes from FAILED to SUCCEEDED when the executor returns after the recovery threshold |
| `LateResults.CompletedAfterFailure` | src/security_triage_agent/application/orchestrator.py:402-417 | a whole trace from an empty system, for every threshold, that takes a run from FAILED to COMPLETED |
| `LateResults.SucceededAfterFailure` | src/security_triage_agent/application/approval_service.py:225-258 | its continuation through approval and execution, which takes the action of that result from FAILED to SUCCEEDED |
| `Orchestrator.TriageOrchestrator.FindReplay` | src/security_triage_agent/application/orchestrator.py:244-271 | the lookup ends the run with the replay or a persistence failure, or lets it start |
| `Orchestrator.TriageOrchestrator.PersistStart` | src/security_triage_agent/application/orchestrator.py:273-327 | the start commits, or the failure is recorded and the run is over |
| `Orchestrator.TriageOrchestrator.PersistTool` | src/security_triage_agent/application/orchestrator.py:329-386 | the record of a call commits, or the failure is recorded and the run is over |
| `Orchestrator.TriageOrchestrator.PersistFinal` | src/security_triage_agent/application/orchestrator.py:388-461 | the result, its actions and its audit commit together, or the failure is recorded; the outcome says which |
| `Orchestrator.TriageOrchestrator.StageFinal` | src/security_triage_agent/application/orchestrator.py:406-438 | the loop over the actions and the writes after it stage exactly the final transaction |
| `Orchestrator.TriageOrchestrator.RecordPersistenceFailure` | src/security_triage_agent/application/orchestrator.py:463-513 | the failure transaction of the run machine, its skips included, ending without a durable outcome |
| `Orchestrator.TriageOrchestrator.CallTool` | src/security_triage_agent/application/orchestrator.py:189-203 | gateway call, durable record and the branch after it follow the machine |
| `Orchestrator.TriageOrchestrator.Iterate` | src/security_triage_agent/application/orchestrator.py:119-214 | one iteration, with its ten exits, follows the machine |
| `Orchestrator.TriageOrchestrator.Investigate` | src/security_triage_agent/application/orchestrator.py:114-220 | the loop ends with exactly one of a termination reason and a candidate unless the run is over, at the machine's phase for it |
| `Orchestrator.TriageOrchestrator.Conclude` | src/security_triage_agent/application/orchestrator.py:218-242 | the policy's decision on a candidate, the safe review without one, with the reason reported |
| `Orchestrator.TriageOrchestrator.Run` | src/security_triage_agent/application/orchestrator.py:93-242 | the whole run, from entry to outcome, walks the run machine over the same store |
| `Refinement.RunReaches` | src/security_triage_agent/application/orchestrator.py:93-242 | what `run` does, whole, leads from every reachable state of the interleaved system to a reachable state with the store it leaves and the outcome it returns |
| `Refinement.ExecuteReaches` | src/security_triage_agent/application/approval_service.py:146-258 | the same for `execute`: the store it leaves, and what it handed to the executor in the log |
| `Refinement.DecideIsReview` | src/security_triage_agent/application/approval_service.py:83-144 | a decision is one step of the system |
| `Refinement.RunPassReaches` | src/security_triage_agent/application/recovery_service.py:51-82 | a recovery pass over runs is one step of the system, on the rows its query answers |
| `Refinement.ActionPassReaches` | src/security_triage_agent/application/recovery_service.py:84-123 | the same for a pass over action executions |
| `Fixtures.MakeUniqueIndex` | src/security_triage_agent/adapters/tools/fixture_models.py:168-176 | the index is built exactly when no key repeats, and then holds every record under its key and nothing else |
| `Fixtures.CheckIdentity` | src/security_triage_agent/adapters/tools/fixture_models.py:99-105 | accepts exactly identities whose devices are distinct, exist and name them as owner |
| `Fixtures.CheckAlerts` | src/security_triage_agent/adapters/tools/fixture_models.py:136-148 | accepts exactly when every alert refers to existing entities of its user |
| `Fixtures.Validate` | src/security_triage_agent/adapters/tools/fixture_models.py:82-148 | accepts a dataset if and only if it is integral: versions, unique keys, ownership in both directions, all cross-references |
| `Fixtures.FirstMatchIsLookup` | src/security_triage_agent/adapters/tools/fixtures.py:118-123 | the first match in file order is what the index holds |
| `Fixtures.LookupExact` | src/security_triage_agent/adapters/tools/fixtures.py:118-164 | a lookup finds exactly the record with the key; without one it is NOT_FOUND exactly when the key can be named as an Identifier, and raises otherwise |
| `Fixtures.UserRiskExact` | src/security_triage_agent/adapters/tools/fixtures.py:118-123 | on an accepted dataset: never raises, finds exactly the user's record, which belongs to a known identity, and is NOT_FOUND exactly without one |
| `Fixtures.DeviceContextExact` | src/security_triage_agent/adapters/tools/fixtures.py:137-142 | the same for a device; every owner it names uses it |
| `Fixtures.IdentityContextExact` | src/security_triage_agent/adapters/tools/fixtures.py:240-245 | the same for an identity; every device it names is the user's |
| `Fixtures.IpReputationExact` | src/security_triage_agent/adapters/tools/fixtures.py:156-164 | on an accepted dataset: finds exactly the record of the address; without one it raises if and only if the address is not an Identifier |
| `Fixtures.UnlistedLoopbackRaises` | src/security_triage_agent/adapters/tools/fixtures.py:156-164 | the valid address ::1 makes the tool raise on every accepted dataset that does not list it |
| `Fixtures.NewestFirstSorts` | src/security_triage_agent/adapters/tools/fixtures.py:78-104 | the sort is a permutation in strictly descending (time, id) order |
| `Fixtures.RecentSignInsExact` | src/security_triage_agent/adapters/tools/fixtures.py:78-104 | on an accepted dataset: the user's sign-ins of the window, each once, strictly newest first; NOT_FOUND exactly for unknown users; raises exactly when the window begins before the first representable time |
| `Fixtures.EarliestWindowRaises` | src/security_triage_agent/adapters/tools/fixtures.py:78-104 | a concrete accepted dataset on which it raises |
| `Fixtures.MfaEventsExact` | src/security_triage_agent/adapters/tools/fixtures.py:178-188 | on an accepted dataset: never raises, the user's events, each once, strictly newest first |
| `Fixtures.RelatedAlertsExact` | src/security_triage_agent/adapters/tools/fixtures.py:202-226 | on an accepted dataset: never raises, exactly the mapped alerts, each of which mentions the user, strictly newest first |

## Left out

- Orchestrator.TriageOrchestrator.Run: proved over a store nobody else writes to during the run; interleavings are the subject of `System`, which the run's steps are shown to be steps of.
- ApprovalService.ApprovalService.Execute: the same; concurrent callers are the subject of `Executions`.
- Actions.DigestFaithful: a float stands for the text written for it, so `1` and `1.0` are different trees, while Python's `==` in `action in result.recommended_actions` takes 1, 1.0 and True for equal; the digest comparison beside it tells them apart.
- Orchestration.EvaluationCites: `str()` of a provenance value that is not text is an arbitrary function.
- Policy.BuildCatalog: descriptive fields of definitions are not modelled; a parameter model is a predicate on the parameters.
- Fixtures.LookupExact: the provenance the tools attach to an answer, and what loading a dataset checks of single fields, are not modelled.
- Store.UnitOfWork.Commit: a flush is part of the commit; a commit that takes effect but is reported as failed, and collisions of audit event ids, count as faults.
- Audit events carry what the lifecycle fold and the services decide on; correlation ids, durations, actors and free-form data are not modelled.
- `evaluate_untrusted` adds one branch, the safe review, to `evaluate`; the orchestrator's use of it is the safe exit.
- The size of a reasoner context is a value of the environment, not computed from the context's text.
- An alert stored under the caller's alert id is not compared with the caller's alert, as in the code.
- `FixedClock` is a test double; clocks are monotone values of the environment.
- Web routes, command line, configuration, logging, migrations, the model adapter and its prompts, evaluation scoring and alert ingestion are around the workflow, not in it.
- Database collation, thread pools and pydantic's coercions: text comparison is by code point, a wait either returns in time or is abandoned, and inputs arrive already coerced.
