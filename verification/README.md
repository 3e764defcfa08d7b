# V3-AIDLC control plane: a verified model

V3-AIDLC is a deterministic control plane for agent work: it decides what may run, in which order, with which
context, on what evidence it is accepted, and what to do after an interruption. This project models its decision
engines and its concurrent write protocols and proves what they promise, for every input, every run and every
interleaving.

Each engine appears twice: as a function on values, which fixes what is decided and in which order errors are
found, and as methods whose loops and in-place updates follow the program and are proved to compute that function.
The properties are then proved of the function. The files that end in `Reports` and their like read the outcome off
the inputs alone: they say which error or which result comes out in terms of the fields that go in, and not of the
function's own tests.

| files | what they hold |
|---|---|
| `Orders`, `Collections`, `Text`, `Json` | comparison and sorting as Python's `sorted` does it, list operations and permutations, text helpers, JSON values |
| `Scheduler`, `SchedulerEngine`, `SchedulerProperties`, `ScheduleReports` | the conflict-aware scheduler |
| `ContextCompiler`, `ContextEngine`, `ContextProperties`, `ContextReports` | the context compiler |
| `EventLog`, `EventLogProperties`, `EventLogReports` | the hash-linked, append-only event log |
| `Recovery`, `RecoveryProperties`, `RecoveryActions` | the recovery planner |
| `EvidenceGates`, `EvidenceGateEngine`, `EvidenceGateProperties`, `GateReports` | the evidence gate with exceptions |
| `Orchestrator`, `OrchestratorEngine`, `OrchestratorProperties` | the reference orchestrator, whose runs leave an event trace |
| `TraceReports`, `TraceEvents`, `ScenarioOutcomes` | what such a trace says of its scenario: entries, status, events, schedule and integration, and when there is one |
| `InterruptedRuns` | what recovery does after a run that breaks off |
| `TraceRecording`, `SharedRunExample`, `ControlledRuns` | when a run's records are accepted, a finished run that recovery refuses, and what stands behind a completed run when its acceptance gates are evidence gates |
| `WorkPackageStore`, `WorkPackageProperties`, `StatusTable`, `ProjectCreation`, `ProjectReadBack` | work-package rows and their log under concurrent, version-checked writes, and the creation of a project and its reading back |
| `QuotaStore` | the quota row under concurrent compare-and-set |
| `ReviewGate`, `RepairLoop`, `RepairProperties`, `RepairReports` | the gate over checks and review, and the bounded repair loop around it |
| `EnvironmentOverrides`, `EnvironmentEngine`, `ConfigLayers`, `ProtectedValues`, `LayerPrecedence`, `RuntimeProfiles`, `RuntimeReports` | configuration from environment variables, the layered merge, and the assembly of a checked runtime |
| `ServiceLevels` | service-level evaluation |

Conventions. Times are whole microseconds (whole units of any clock where only their order matters). Strings compare
by code point. SHA-256 over canonical JSON, the rendered size of an item and the parsing of timestamps are function
parameters; injectivity of the hash is a hypothesis of the one lemma that needs it. A raised error is a `Failure` or
`None`; its tag names the check that refused. Concurrency is a sequence of steps of any clients in any order.

The orchestrator, its log and recovery are tied together: a run that breaks off is repeated only where that is harmless.
Whatever prefix of its trace is left and whatever leases are held, a run is requeued exactly when it is underway for an
item without an effect outside, its lease has expired and attempts remain (`InterruptedRunIsRepeatedIff`).

Some promises hold only under a condition. The code is modelled as it is, the condition is exact, and a lemma
exhibits a failing input:

- Re-appending an identical draft returns the original event exactly when the draft carries none of the three fields
  an append stamps; otherwise the retry is refused (`RetryReturnsOriginalIffClean`, `UncleanRetryIsRefused`; an
  accepted draft of that kind is in `SequencedDraftFailsItsRetry`).
- A finished orchestration can be recovered, and needs nothing, exactly when its dispatched runs have different ids;
  otherwise the planner refuses the history (`NothingToRecoverAfterARun`; a completed run of two packages that is
  refused is in `SharedRunIsRefused`).
- In the repair loop a promotable gate means that every check passed exactly when the check ids are distinct
  (`PromotableMeansAllPassedIffDistinct`, `SharedIdHidesAFailure`).
- Environment variables whose values are no objects and whose paths overlap are refused exactly when the shallower
  one sorts first, which upper-case names guarantee. Where they are accepted, a variable's value stays exactly when the
  last variable that spells its path or one above it gives that value; `V3__a` beside `V3__A__B` loses a value without
  an error (`LastWriterDecides`, `VariableStaysIff`, `MixedCaseLosesAValue`).
- For keys distinct ignoring case, a merge leaves a protected value in place exactly when the override has only objects
  above it (`MergeKeepsProtectedIff`, `TextForAnObjectDropsIt`). The check of the assembled runtime restores the promise
  for three of the four protected values, and in production for the fourth (`ProtectedValuesOfARuntime`). Another profile
  can lose its verification flag (`DetourLosesProvenance`), and keeps it exactly when a scan of the layers ends in held:
  a layer whose security section is no object takes the flag away, and the next one whose section is an object gives it
  back or does not (`AssemblyHasProtectedIff`, `ProvenanceIsKeptIff`).
- The percentile is the nearest-rank one exactly when n times p is below one, whole, or at least a millionth above a
  whole number (`NearestRankIff`, `OneRankLow`).
- The database's transition and the domain's own transition agree exactly when trimming leaves the ids of the event,
  the project and the package as they are and none is blank (`WriteIsTheDomainTransition`). A project whose id has
  blanks at its ends is created normally, and the two then log different project ids (`PaddedProjectDividesThem`).
- Creating a project commits and then reads back and validates: it throws, with everything it wrote kept, exactly when
  the project's id or name is blank or a requirement has no acceptance criterion (`CreatingThrowsIff`; one
  with such a requirement is in `UncheckableProjectThrows`).
- The states a repair loop emits follow the transition table of work packages except into running, which the table
  allows neither from eligible nor from repair required (`OnlyRunningLeavesTheTable`).

## Model

| member | source | states |
|---|---|---|
| SchedulerEngine.Schedule | src/v3_aidlc/scheduler.py:248-338 | the loops over usage, reservations, entries and selection compute exactly the plan of the specification, or its error |
| SchedulerEngine.AdmitInOrder | src/v3_aidlc/scheduler.py:292-336 | one pass with a running usage table and reservation list makes the greedy choices, given a table that tracks what is already held |
| SchedulerEngine.CollectConflicts | src/v3_aidlc/scheduler.py:234-245 | the three nested loops collect every conflict with everything held, once each, in sorted order |
| SchedulerEngine.CollectQuota | src/v3_aidlc/scheduler.py:221-231 | the quota reasons read off a running usage table are those computed from what is held |
| SchedulerProperties.BlockedIffReasons | src/v3_aidlc/scheduler.py:296-307 | a candidate has no deferral reason exactly when its dependencies are complete, its revision current, its claims compatible with everything held and its costs declared and within every limit |
| SchedulerProperties.PlanIsSafe | src/v3_aidlc/scheduler.py:278-336 | selected packages never conflict with each other or with active work, cost only limited dimensions, have complete dependencies and current revisions, and usage ends within the larger of the limit and what was already active |
| SchedulerProperties.PlanIsMaximal | src/v3_aidlc/scheduler.py:295-336 | every candidate is either selected or does not fit beside the final selection |
| SchedulerProperties.PlanIsStable | src/v3_aidlc/scheduler.py:248-338 | scheduling the deferred candidates again, with the selected ones active, selects nothing |
| SchedulerProperties.PlanIsTheStableChoice | src/v3_aidlc/scheduler.py:292-336 | the selection is the only one in which each candidate, in order, is taken exactly when it fits beside active work and the taken ones before it |
| SchedulerProperties.PlanIgnoresOrder | src/v3_aidlc/scheduler.py:264-338 | permuting candidates or active reservations gives the identical plan or error, with the same entries and reasons in the same order |
| SchedulerProperties.PlanCoversCandidates | src/v3_aidlc/scheduler.py:293-338 | the plan's entries name every candidate exactly once and nothing else |
| SchedulerProperties.EntriesMatchSelection | src/v3_aidlc/scheduler.py:317-338 | looked up by id, an entry says selected exactly when its id is in the selection, and only candidates are selected |
| SchedulerProperties.OrderIsTotal | src/v3_aidlc/scheduler.py:283-291 | the scheduling key orders all candidates totally |
| SchedulerProperties.AgeingIsBounded | src/v3_aidlc/scheduler.py:207-218 | safety work stays at zero; other work stays between max(1, base - boost) and base, and gets there once the wait is that many windows |
| SchedulerProperties.EarlierQueuedGoesFirst | src/v3_aidlc/scheduler.py:207-218 | within one priority class and user priority the earlier-queued candidate's entry always comes first |
| ScheduleReports.PriorityMeans | src/v3_aidlc/scheduler.py:207-218 | the priority value of a candidate is the place of its class in the list of classes less one for each whole ageing window it has waited, at most the boost, never below one, and zero for safety |
| ScheduleReports.ReasonsAreObstacles | src/v3_aidlc/scheduler.py:221-307 | the reasons for deferring are exactly the texts of the incomplete dependencies, the unknown or stale revision, each domain with each holder of a clashing claim, and the quota dimensions that are unknown or would be exceeded by what active work and earlier selections cost |
| ScheduleReports.PlanReads | src/v3_aidlc/scheduler.py:283-338 | the entries of an accepted plan are about the candidates by priority value, then higher user priority, then earlier queuing, then smaller id; each is selected exactly when nothing stands in its way beside active work and those selected before it, and else lists each obstacle once, in the order they are checked; the selection lists the selected ones in that order |
| ScheduleReports.RefusedPlanIff | src/v3_aidlc/scheduler.py:260-276 | each refusal comes exactly when its check is the first that fails, and a plan exactly when none does: policy, state revision, candidates, reservations, distinct packages, one project |
| ContextEngine.CompileContext | src/v3_aidlc/context_compiler.py:275-390 | screening, grouping, resolving, sorting and packing in loops compute exactly the manifest of the specification, or its error |
| ContextEngine.ScreenAll | src/v3_aidlc/context_compiler.py:301-333 | the first loop keeps exactly the items no check screens out and excludes the others with their reason |
| ContextEngine.PackAll | src/v3_aidlc/context_compiler.py:366-390 | the packing loop selects what first-fit packing picks, with the exact sum of their sizes |
| ContextProperties.SelectionIsDisclosable | src/v3_aidlc/context_compiler.py:232-261 | nothing selected is outside the recipe's kinds, sources, ceiling or the run's scope, or expired; confidential items and up are named by a current grant to this run and role; all is always included or shares a task tag; and a secret's content is never there |
| ContextProperties.EligibleIff | src/v3_aidlc/context_compiler.py:302-333 | an item is eligible exactly when it may be disclosed and is always included or shares a task tag |
| ContextProperties.SelectionSpeaksOncePerClaim | src/v3_aidlc/context_compiler.py:335-351 | each claim is selected at most once, by the newest of the highest-authority eligible items, and equal-authority rivals carry the same payload |
| ContextProperties.NothingIsLost | src/v3_aidlc/context_compiler.py:298-390 | every candidate id appears exactly once across selected items and exclusions |
| ContextProperties.PackComesFirst | src/v3_aidlc/context_compiler.py:366-390 | first-fit packing respects both budgets and comes first, item by item, among all packings that do |
| ContextProperties.SelectionIsFirstFeasible | src/v3_aidlc/context_compiler.py:358-390 | the compiled selection is that lexicographically first packing of the resolved items, and the reported size is the sum of the selected sizes |
| ContextProperties.CompileIgnoresOrder | src/v3_aidlc/context_compiler.py:275-390 | permuting candidates or grants gives the same error or the same manifest: selection, size, digest, identity and exclusions |
| ContextReports.SelectionInOrder | src/v3_aidlc/context_compiler.py:335-390 | every selected item speaks for its claim (its source outranks the others', then it is the newest, then has the largest id), and the selected ones come always-included first, then by higher-ranking source, then by the recipe's order of kinds, then by smaller id |
| ContextReports.SelectedIffItFits | src/v3_aidlc/context_compiler.py:366-390 | an item that speaks for its claim is selected exactly when the selected ones before it in that order leave it a slot and the bytes it takes |
| ContextReports.AlwaysIncludedGoesFirst | src/v3_aidlc/context_compiler.py:358-390 | an always-included item that speaks for its claim misses the budget only because selected items that are always included as well leave no slot or too few bytes |
| ContextReports.ManifestReads | src/v3_aidlc/context_compiler.py:366-421 | the manifest names run, role, recipe and time, sends exactly the rendered fields of each selected item, counts their bytes, and is named after the run and the digest of its body |
| ContextReports.ExclusionsAre | src/v3_aidlc/context_compiler.py:302-390 | the exclusions, by id, give for each candidate that is not sent exactly the first thing that kept it out, the item that speaks for its claim instead, or the budget |
| ContextReports.RefusedContextIff | src/v3_aidlc/context_compiler.py:282-395 | each refusal comes exactly when its check is the first that fails: recipe, run, roles, grants, candidates, two leading items that disagree on a claim, and a required kind that is not selected |
| EventLog.VerifyEventChain | src/v3_aidlc/recovery.py:178-206 | the single walk with its running sets finds exactly the first fault of the chain, in the order the checks are made |
| EventLog.AppendEvent | src/v3_aidlc/recovery.py:150-175 | the key search and the append return exactly what the specification appends, finds or refuses |
| EventLogProperties.VerifierIsExact | src/v3_aidlc/recovery.py:178-206 | the verifier accepts a chain exactly when no event has a fault after the events before it |
| EventLogProperties.AcceptedEvent | src/v3_aidlc/recovery.py:184-206 | in an accepted chain each event has its position as sequence, its own content's hash, the link to its predecessor, the chain's project, and a key and id no earlier event has |
| EventLogProperties.HeadFixesHistory | src/v3_aidlc/recovery.py:111-113 | two accepted chains with one head hash are equal event by event, or two of their events are a hash collision |
| EventLogProperties.InjectiveHeadFixesHistory | src/v3_aidlc/recovery.py:178-206 | under an injective hash the head alone fixes length and every event |
| EventLogProperties.AppendStep | src/v3_aidlc/recovery.py:155-175 | a successful append leaves a valid chain: one new event at the end exactly when the key is new, and an untouched history otherwise |
| EventLogProperties.NewKeyIsAppendedIff | src/v3_aidlc/recovery.py:116-175 | with a hash that always yields digests, a draft with a new key is appended to an accepted chain exactly when it is valid by itself, stays in the project, has a new event id and names no missing cause; the stamps never cause a refusal |
| EventLogProperties.AppendsGrowByNewKeys | src/v3_aidlc/recovery.py:150-175 | any run of successful appends keeps the chain valid, only adds at the end, and adds one event per distinct new key |
| EventLogProperties.ComparableIsDraft | src/v3_aidlc/recovery.py:159-171 | taking the stamps off an appended event gives its draft back exactly when the draft carried none of them |
| EventLogProperties.RetryReturnsOriginalIffClean | src/v3_aidlc/recovery.py:157-166 | after any number of later appends, re-appending a draft returns the original event and changes nothing exactly when the draft carries no stamped field, and is refused exactly otherwise |
| EventLogProperties.UncleanRetryIsRefused | src/v3_aidlc/recovery.py:157-166 | a draft that carries a sequence number is accepted once and refused on an identical retry |
| EventLogProperties.SequencedDraftFailsItsRetry | src/v3_aidlc/recovery.py:155-171 | a concrete draft with a sequence number, appended to the empty log, is a new event, and its identical retry is refused |
| EventLogReports.FirstFaultIs | src/v3_aidlc/recovery.py:116-206 | a chain is accepted exactly when every event is sound by itself (its texts, its actor, a time of occurrence that is not after the time of recording, digests) and continues those before it, and else the fault of the first event that does not is reported |
| EventLogReports.AppendIs | src/v3_aidlc/recovery.py:150-175 | a broken history is refused with its fault; else the first event with the draft's key is returned exactly when it was made from this very draft, and refused when it was not; and with a new key the draft with its number, link and hash is appended when it continues the history, and else refused with its fault |
| Recovery.PlanRecovery | src/v3_aidlc/recovery.py:333-454 | the scans that fill the dictionaries and the decision loop compute exactly the plan of the specification, or its error |
| Recovery.ScanRuns | src/v3_aidlc/recovery.py:346-355 | the scan is refused exactly for an unnamed run or a repeated dispatch, and else knows every dispatch and every completed run |
| Recovery.IndexLeases | src/v3_aidlc/recovery.py:357-363 | the dictionary of leases exists exactly when every lease is valid and no two share a holder |
| RecoveryProperties.PlanIsExact | src/v3_aidlc/recovery.py:365-454 | the plan has, in strict run-id order, exactly one step for each dispatched run that is unfinished or still holds an active lease |
| RecoveryProperties.NothingIsTakenAway | src/v3_aidlc/recovery.py:369-448 | only an expired active lease leads to a requeue, and a live lease is only ever waited for or reconciled |
| RecoveryProperties.PlanIgnoresLeaseOrder | src/v3_aidlc/recovery.py:357-366 | permuting the leases gives the same plan or error |
| RecoveryProperties.NothingToRecoverIff | src/v3_aidlc/recovery.py:365-379 | the plan is empty exactly when every dispatched run completed and holds no active lease |
| RecoveryActions.EachActionIff | src/v3_aidlc/recovery.py:365-448 | for a dispatched run with a lease, exactly when each of the six actions is taken, read off the completion events, the lease, the observed effects and the flag in the payload of the dispatch |
| RecoveryActions.RequeuedIff | src/v3_aidlc/recovery.py:400-448 | a run is requeued exactly when an event dispatched it that says no effect outside is possible and whose effect is not known to have succeeded, it was not completed, its lease is active and expired, and attempts remain |
| RecoveryActions.StepsNameTheirLease | src/v3_aidlc/recovery.py:380-399 | a dispatched run without a lease is an orphan unless it completed; every step names the lease of its run, and none exactly where there is none |
| RecoveryActions.RefusedIff | src/v3_aidlc/recovery.py:340-363 | each refusal comes exactly when its check is the first that fails: history, budget, runs, leases; a plan names its time and the length of the history |
| InterruptedRuns.InterruptedRunIsRepeatedIff | src/v3_aidlc/reference_orchestrator.py:488-509 | for any prefix of a managed trace and any leases and observations, an expired lease is requeued exactly when its run is underway for an item without an effect outside and attempts remain, escalated when none remain, and verified exactly when its run is underway for an item with such an effect |
| InterruptedRuns.InterruptedRunIsRecoverable | src/v3_aidlc/reference_orchestrator.py:657-668 | for distinct run ids recovery after any prefix of a managed trace goes through exactly when there is a budget and the leases are in order |
| EvidenceGateEngine.EvaluateGate | src/v3_aidlc/evidence_gates.py:330-464 | dictionaries, sorted rules and the tallying loop compute exactly the evaluation of the specification, or its error |
| EvidenceGateProperties.NoFlawsIffAdmissible | src/v3_aidlc/evidence_gates.py:251-289 | an assessment has no reasons exactly when evidence is enough, distinct, present, valid, of an accepted kind, bound to the subject's revision and fresh, and the evaluator independent where required |
| EvidenceGateProperties.PromotableIffAllMet | src/v3_aidlc/evidence_gates.py:362-450 | a gate is promotable exactly when every rule that is required, or whose every condition names a fact that is present and is, or is among, the asked values, has a result for this revision, not dated after the gate, admissible, and passed or excused by a valid exception |
| EvidenceGateProperties.FailedIffUnexcusedFailure | src/v3_aidlc/evidence_gates.py:362-444 | the outcome is failed exactly when the admissible result of some such rule failed without a valid exception |
| EvidenceGateProperties.HardControlsAreNeverExcused | src/v3_aidlc/evidence_gates.py:206-209 | in a promotable gate every such rule that is a hard control passed, whatever exceptions were filed |
| EvidenceGateProperties.MoreFactsNeverPromote | src/v3_aidlc/evidence_gates.py:114-120 | adding facts never makes a gate promotable that was not |
| EvidenceGateProperties.FreshEvidenceNeverDemotes | src/v3_aidlc/evidence_gates.py:343-348 | filing more valid evidence under new ids leaves a promotable evaluation exactly as it was |
| GateReports.RequiredChecksAre | src/v3_aidlc/evidence_gates.py:362-374 | the required checks are, in rule order and once each, those of the required rules and of the conditional rules whose every named fact is present and has an asked value, so no other rule has any influence; the advisory ones are those of the advisory rules |
| GateReports.FlawsAre | src/v3_aidlc/evidence_gates.py:251-289 | the flaws of a result are exactly what is wrong with its evidence: too little, repeated, missing, of another kind, about another subject or revision, dated after the evaluation or too old, or judged by the producer's own group |
| GateReports.JudgementsAre | src/v3_aidlc/evidence_gates.py:383-441 | of each required check the evaluation says that it has no result, that the result is about something else, comes too late or has flaws, that it passed, that an exception excuses it, or, with the first reason against the exception, that it failed or is open |
| GateReports.OutcomeIs | src/v3_aidlc/evidence_gates.py:443-457 | the outcome is failed when some required check is condemned, else inconclusive when some is not closed, else passed with exception when some did not pass by itself, else passed; each exactly then |
| GateReports.ListedChecksAre | src/v3_aidlc/evidence_gates.py:376-432 | the missing checks are, in order, exactly those without a result, the invalid ones those whose result proves nothing, and the accepted exceptions those that excuse a result that did not pass |
| GateReports.RefusedEvaluationIff | src/v3_aidlc/evidence_gates.py:341-360 | each refusal comes exactly when its check is the first that fails: gate, evidence, repeated results, repeated exceptions, and then a required check with another contract or an exception nobody answers for |
| OrchestratorEngine.ExecuteScenario | src/v3_aidlc/reference_orchestrator.py:199-655 | the whole run, with its recorder, its two passes, integration, status and self-check, yields exactly the trace of the specification, or none when something raises |
| OrchestratorEngine.Recorder.Record | src/v3_aidlc/reference_orchestrator.py:250-276 | recording appends one event numbered after and caused by the last, and a refused append leaves the recorder as it was |
| OrchestratorEngine.PrepareWork | src/v3_aidlc/reference_orchestrator.py:285-440 | the first pass goes through exactly when no service raises, no package repeats and every record is accepted, and then holds each item's trace, adapter and candidate |
| OrchestratorEngine.RunWork | src/v3_aidlc/reference_orchestrator.py:464-571 | the second pass goes through exactly when nothing raises and every record is accepted, and then holds each item's outcome, the completions and the failure and waiting flags |
| OrchestratorEngine.IntegrateWork | src/v3_aidlc/reference_orchestrator.py:573-615 | integration runs exactly when the requested members are the completed ones, and its outcome is recorded |
| OrchestratorProperties.HistoryMirrorsLog | src/v3_aidlc/reference_orchestrator.py:254-276 | every record of a run becomes exactly one event of an accepted chain, saying what was recorded, at its own position |
| OrchestratorProperties.EveryDispatchIsEarned | src/v3_aidlc/reference_orchestrator.py:300-498 | every dispatch in a managed trace comes after its package's authorization with a proceeding decision, then its run's negotiation, then a plan that lists the package |
| OrchestratorProperties.CourseCompletedIff | src/v3_aidlc/reference_orchestrator.py:617-631 | the flags of a run add up to completed exactly when every item was authorized, selected, ran to completion and passed a promotable gate, and any requested integration passed |
| OrchestratorProperties.CompletedIffAllAccepted | src/v3_aidlc/reference_orchestrator.py:638-655 | a managed trace says completed exactly when every work entry in it was authorized, selected, ran to completion and passed a promotable gate, and any requested integration passed |
| OrchestratorProperties.SelectionAgrees | src/v3_aidlc/reference_orchestrator.py:101-109 | the plan's selection is exactly the set of packages the trace reports as selected |
| OrchestratorProperties.SelfCheckNeverFails | src/v3_aidlc/reference_orchestrator.py:76-111 | the validation at the end of a managed run, its texts included, accepts every trace the run builds |
| TraceReports.ValidTraceIff | src/v3_aidlc/reference_orchestrator.py:76-111 | the validation accepts exactly traces with named texts and distinct packages that, unmanaged, have nothing and, managed, have an unbroken chain of their own project, a plan that selects exactly the packages reported as selected, and a batch where integration passed |
| TraceReports.EntriesRead | src/v3_aidlc/reference_orchestrator.py:464-571 | every work entry of a managed trace says what the services said of its item: its authorization, its context, its adapter, its place in the schedule, how its run ended and how its gate judged it, with the reasons |
| TraceReports.StatusIs | src/v3_aidlc/reference_orchestrator.py:617-631 | the status of a managed trace is blocked when a control stopped an item, else decision required when one awaits the user, else failed when a run is not acceptable or a requested integration did not pass, else waiting when one is deferred, else completed; each exactly then, read off the entries |
| TraceEvents.EventsTellTheStory | src/v3_aidlc/reference_orchestrator.py:155-184 | the events of a managed trace are, number by number and word by word, the start, every item's preparation, the schedule, every selected item's dispatch, completion and gate, the integration, and last the text of the status |
| ScenarioOutcomes.PursuedIff | src/v3_aidlc/reference_orchestrator.py:277-615 | nothing outside the log raises exactly when there is work, no package repeats, every item prepares, what is ready can be scheduled, every selected item's run and gate go through, and so does a requested integration |
| ScenarioOutcomes.TracedIff | src/v3_aidlc/reference_orchestrator.py:199-655 | a scenario leaves a trace exactly when its texts are named and either it stays a conversation, or also its route is named, its clock can be read, nothing raises and all that is recorded has a name |
| ScenarioOutcomes.TraceIsAbout | src/v3_aidlc/reference_orchestrator.py:199-249 | a trace repeats what the scenario is about, and one of a conversation has no work, no events and no plan |
| ScenarioOutcomes.ScheduledAndIntegrated | src/v3_aidlc/reference_orchestrator.py:442-615 | the plan in a managed trace is the schedule of what is ready, and a requested batch is blocked exactly when its members are not what was delivered, and else judged |
| TraceRecording.RecordedIff | src/v3_aidlc/reference_orchestrator.py:155-190 | the records of a run are accepted exactly when each has a type and a named subject, the project has a name and the time can be read: numbers, keys, causes, links and hashes never cause a refusal |
| TraceRecording.TracedIffPursued | src/v3_aidlc/reference_orchestrator.py:199-655 | a managed scenario leaves a trace exactly when its clock can be read, nothing outside the log raises, and whatever it records has a named subject |
| OrchestratorProperties.NothingToRecoverAfterARun | src/v3_aidlc/reference_orchestrator.py:657-668 | recovering a finished run without leases plans nothing, and is refused exactly when two dispatched items share a run id |
| OrchestratorProperties.FinishedRunsNeedNoRecovery | src/v3_aidlc/reference_orchestrator.py:657-668 | for distinct run ids recovery of any managed trace without leases succeeds with no step |
| SharedRunExample.SharedRunIsRefused | src/v3_aidlc/reference_orchestrator.py:657-668 | a concrete scenario of two packages with one run id finishes as completed, and the planner refuses its history |
| ControlledRuns.CompletedMeansControlled | src/v3_aidlc/reference_orchestrator.py:510-536 | with evidence gates as acceptance gates, behind a completed trace every item has a gate in which every selected check was met and every selected hard control passed on admissible evidence |
| WorkPackageStore.Database.CreateProject | packages/database/src/index.ts:76-205 | inserts the project, its requirements with their criteria, plans and planned packages with their creation events in one transaction, or changes nothing when any key is taken; then returns normally when what it reads back is valid, and else throws and keeps it |
| ProjectCreation.CreatedIff | packages/database/src/index.ts:76-205 | a project is created exactly when all its ids are new: no two of its parts share one, whatever their kinds, none has been logged or has a row, and its criteria are distinct and new; it then writes one creation event for each part, a planned row for each package, its name, requirements and criteria, and nothing else |
| ProjectReadBack.CreatingThrowsIff | packages/database/src/index.ts:202-204 | whatever others did before and do between the transaction and the reading back, a created project stays written, and the call throws exactly when the project's id or name is blank or a requirement has no acceptance criterion |
| ProjectReadBack.UncheckableProjectThrows | packages/domain/src/index.ts:234-250 | a concrete project whose requirement has no acceptance criterion is written with it, and the creating call throws |
| WorkPackageStore.Database.WritePackage | packages/database/src/index.ts:426-443 | moves the row and logs the transition exactly when the version is still the one read and no event of any record has the event id or this package and version, and else changes nothing |
| WorkPackageStore.Database.TransitionPackage | packages/database/src/index.ts:417-444 | a lone transaction moves the package and logs the transition exactly when the package is there, the table allows the move and neither the event id nor the next version is taken, and else changes nothing |
| WorkPackageProperties.EveryHistoryReplaysToItsRow | packages/database/src/index.ts:417-444 | under any interleaving, events of other records included, a package's events have contiguous versions from one, start with creation, stay in its project, follow the table from the status left before and replay to the stored row; no two events share an id, or record and version |
| WorkPackageProperties.ClosedWasReviewed | packages/domain/src/index.ts:145-162 | under any interleaving a closed row's log ends eligible, leased, running, optionally evidence pending, verifying, reviewing, accepted, closed |
| WorkPackageProperties.WriteSucceedsIffUndisturbed | packages/database/src/index.ts:422-443 | between a client's read and its write any others may act and log events of any records; the write succeeds exactly when nothing was logged for its package meanwhile and no event has its event id, and else changes nothing |
| WorkPackageProperties.WriteIsTheDomainTransition | packages/domain/src/index.ts:181-230 | a successful write does what the domain's transition does to the row of that moment, exactly when trimming leaves the ids of event, project and package as they are and none is blank |
| WorkPackageProperties.PaddedProjectDividesThem | packages/domain/src/index.ts:164-203 | a project whose id has blanks at its ends is created normally, the database moves its package, and the domain logs the same transition under another project id |
| WorkPackageProperties.FinalIsForever | packages/domain/src/index.ts:158-162 | no run, however many writers were under way, moves a closed, cancelled or superseded package |
| StatusTable.AllowedIff | packages/domain/src/index.ts:145-162 | the table allows a move exactly when its target can come from there |
| StatusTable.ReachesIff | packages/domain/src/index.ts:145-162 | from every status that is not final everything but being proposed can be reached by allowed moves, so also closed, except that accepted work can only close; from a final status nothing can |
| QuotaStore.QuotaRow.Consume | packages/database/src/index.ts:404-414 | one consumer alone succeeds exactly when the amount fits |
| QuotaStore.QuotaIsConserved | packages/database/src/index.ts:404-414 | under any interleaving usage stays between zero and the maximum, is the sum of the granted amounts, and the version is one more than their number |
| QuotaStore.GrantedIffUndisturbed | packages/database/src/index.ts:406-412 | a consumer gets its amount exactly when it is not negative, fitted when read, and nothing was granted in between, and else the row stays as it is |
| ReviewGate.EvaluateGate | packages/verification/src/index.ts:127-159 | the loop over rules and the review computes exactly the gate of the specification, reasons and evidence in order |
| ReviewGate.PromotableIffMetAndApproved | packages/verification/src/index.ts:127-159 | promotable means exactly that each rule's first result passed at this revision, or an optional rule has none, and a current independent review approves |
| ReviewGate.DistinctChecksAllPass | packages/verification/src/index.ts:137-147 | with distinct check ids a promotable gate has seen every result pass |
| ReviewGate.SharedIdHidesAFailure | packages/verification/src/index.ts:138-147 | for any two checks with one id there are results, the later one failed, that the gate promotes |
| ReviewGate.PromotableMeansAllPassedIffDistinct | packages/orchestration/src/index.ts:123-129 | promotable means every check passed, whatever the results, exactly when the check ids are distinct |
| RepairLoop.RunChecks | packages/orchestration/src/index.ts:102-112 | the checks run in order and leave their evidence up to the first that throws |
| RepairLoop.RunLifecycle | packages/orchestration/src/index.ts:77-144 | the loop over attempts, on a store whose lists it extends in place, ends and leaves the store exactly as specified |
| RepairProperties.RunShape | packages/orchestration/src/index.ts:85-144 | with a budget the caller gave, or three where none is given: a negative one changes nothing; else the states are eligible, at most the budget of repair rounds, then an attempt that closes, blocks with the budget used up, or is cut short by a thrown port; one gate and one evidence item per check and review for every judged attempt |
| RepairProperties.OnlyRunningLeavesTheTable | packages/orchestration/src/index.ts:87-142 | every step of a run is one the table of package statuses allows, except exactly the steps into running, of which a run has one at its second state and one after every repair |
| RepairProperties.RunEndsAtFirstAcceptance | packages/orchestration/src/index.ts:90-143 | the loop closes with the first acceptable attempt's own revision and gate, blocks exactly when every attempt of the budget was judged and rejected, and throws exactly when a port threw first |
| RepairProperties.AcceptableMeansVerified | packages/verification/src/index.ts:84-110 | an acceptable attempt was approved by an independent review of the revision it produced and, for distinct check ids, every command ended by itself with exit code zero |
| RepairProperties.ClosedMeansVerified | packages/orchestration/src/index.ts:131-135 | a closed run returns the last attempt's own revision, made with the gate the loop had before it, with that review and, for distinct check ids, those clean commands |
| RepairReports.GateReads | packages/verification/src/index.ts:127-159 | a gate fails exactly when a rule's first result failed or the review does not approve, else is inconclusive exactly when anything is held against it, and else passes; it lists what each rule and then the review hold against it, and the evidence, in order |
| RepairReports.AttemptReads | packages/orchestration/src/index.ts:90-122 | an attempt makes a revision from the gate before it, runs the checks in order, each result saying how its command ended, is reviewed and judged, and leaves exactly these transitions, evidence and gate, or what it left before a port threw |
| RepairReports.RunReads | packages/orchestration/src/index.ts:85-144 | from the caller's budget: after each attempt the run closes with its revision, is sent to repair, blocks when the budget is used up, or ends where a port threw, and leaves exactly that in the store |
| EnvironmentEngine.ReadEnvironment | src/v3_aidlc/runtime_config.py:138-153 | the loop over sorted names, filling nested dictionaries in place, yields exactly the overrides of the specification, or its error |
| EnvironmentEngine.InsertAlong | src/v3_aidlc/runtime_config.py:146-152 | moving the cursor down the parts, making dictionaries on the way, and setting the value at the end changes the whole object as one insertion does, and is refused exactly when that is |
| EnvironmentEngine.Dictionaries.Child | src/v3_aidlc/runtime_config.py:148-151 | going on to a part makes a dictionary only where there is nothing, and is refused exactly where something else is; seen from the outermost object only that place changes |
| EnvironmentEngine.Dictionaries.Set | src/v3_aidlc/runtime_config.py:152 | setting an entry through the cursor replaces, in the outermost object, just the dictionary the cursor is at |
| EnvironmentOverrides.InsertMeans | src/v3_aidlc/runtime_config.py:146-152 | setting any value, objects included, decides what is at its path and below it, makes objects of all above it, and changes nothing else |
| EnvironmentOverrides.InsertFailsIff | src/v3_aidlc/runtime_config.py:147-150 | setting a value is refused exactly when something above its path is no object |
| EnvironmentOverrides.LastWriterDecides | src/v3_aidlc/runtime_config.py:138-153 | for any values the overrides are refused exactly when a name has no parts or something above its path was left as no object by names sorted before it (for values that are no objects: one of their paths lies above it), and else the last writer decides every path |
| EnvironmentOverrides.UpperCaseOverridesAreTheirPaths | src/v3_aidlc/runtime_config.py:138-153 | for upper-case names without empty parts and values that are no objects they succeed exactly when no path lies above another, and then the tree has exactly the variables' values at its leaves |
| EnvironmentOverrides.VariableStaysIff | src/v3_aidlc/runtime_config.py:138-153 | on success a variable's value that is no object is at its path exactly when the last variable that spells that path or one above it gives that value there, so in particular when no later one does; among values that are no objects that last one spells the very path with the very value |
| EnvironmentOverrides.MixedCaseLosesAValue | src/v3_aidlc/runtime_config.py:140-152 | two overlapping mixed-case names are accepted and one value is lost |
| ConfigLayers.Merge | src/v3_aidlc/runtime_config.py:116-128 | the recursive merge into a copy computes exactly the specified result or the protected path it refuses |
| ConfigLayers.MergedMeans | src/v3_aidlc/runtime_config.py:116-128 | for keys distinct ignoring case, merging fails exactly when the override changes a protected value of the base, and else is the right-biased deep merge that ignores the case of keys |
| ConfigLayers.MergeIgnoresKeyOrder | src/v3_aidlc/runtime_config.py:118-120 | for keys distinct ignoring case, the order in which dictionaries list their keys never shows in the result |
| ConfigLayers.MergeKeepsProtectedIff | src/v3_aidlc/runtime_config.py:121-127 | for keys distinct ignoring case, after a successful merge a protected value of the base is where it was exactly when the override has nothing but objects above it |
| ConfigLayers.MergedKeepsProtected | src/v3_aidlc/runtime_config.py:116-128 | whatever keys base and override have and in whatever order they come, a protected value stays where it is through a successful merge that puts only objects above it |
| ConfigLayers.TextForAnObjectDropsIt | src/v3_aidlc/runtime_config.py:122-127 | text in place of the object that holds it drops a protected value without an error |
| ConfigLayers.Assemble | src/v3_aidlc/runtime_config.py:166-179 | the fold over the layers computes exactly the specified configuration and the labels of the layers that had something to say, or its error |
| ConfigLayers.AssemblyIgnoresKeyOrder | src/v3_aidlc/runtime_config.py:165-178 | for keys distinct ignoring case, assembly never depends on the order in which each layer's dictionaries list their keys, one order per layer |
| ConfigLayers.AssemblyKeepsProtected | src/v3_aidlc/runtime_config.py:165-178 | whatever the keys of the layers, a protected value stays through all later layers that put only objects above it |
| LayerPrecedence.LatestLayerDecides | src/v3_aidlc/runtime_config.py:116-178 | for keys distinct ignoring case, assembled layers have a value that is no object at a path exactly when the latest layer that says anything there says it |
| LayerPrecedence.RefusedOverrideIff | src/v3_aidlc/runtime_config.py:116-128 | for keys distinct ignoring case, an override is refused exactly when it says another value where the base has one of the four protected ones |
| LayerPrecedence.RefusedLayersIff | src/v3_aidlc/runtime_config.py:165-178 | for keys distinct ignoring case, an assembly is refused exactly at the first layer that is given and is no object, or says another value where those before it have a protected one |
| ProtectedValues.AssemblyHasProtectedIff | src/v3_aidlc/runtime_config.py:116-178 | for keys distinct ignoring case, assembled layers have a given value at a protected path exactly when the scan of the layers, from where the configuration stood before them, ends in held |
| RuntimeProfiles.ProtectedValuesOfARuntime | src/v3_aidlc/runtime_config.py:75-103 | a returned runtime has the profile's own value at three of the four protected paths whatever the layers do, and in production at the fourth; whatever the keys of the layers, the fourth stays while later layers put only objects above it |
| RuntimeProfiles.ProvenanceIsKeptIff | src/v3_aidlc/runtime_config.py:156-185 | for keys distinct ignoring case, a returned runtime has a given verification flag exactly when the scan of its five layers ends in held, and keeps what defaults and profile made of it exactly when the scan of the layers behind them does |
| RuntimeProfiles.DetourLosesProvenance | src/v3_aidlc/runtime_config.py:165-181 | a team profile whose security section one layer turns into text and a later one back into an object is returned without its verification flag |
| RuntimeProfiles.HoldsNoSecretIff | src/v3_aidlc/runtime_config.py:59-73 | the recursive walk accepts exactly the values in which no path through objects and lists that ends in a key and names a secret leads to anything but nothing or a reference |
| RuntimeProfiles.RuntimeHoldsOnlyReferences | src/v3_aidlc/runtime_config.py:104-108 | in a returned runtime a setting at any depth, inside lists as well, whose path names a secret is nothing or a reference, except the flag that forbids raw secrets |
| RuntimeReports.LatestOfFiveDecides | src/v3_aidlc/runtime_config.py:165-178 | for keys distinct ignoring case, a returned runtime has a setting exactly when, of defaults, profile, project, environment and command line, the latest that says anything there says it |
| RuntimeReports.ProfileMeans | src/v3_aidlc/runtime_config.py:75-108 | a profile passes exactly when its texts are named, its parts are known and distinct, the state file is the authority, no snapshot is, no raw secret is allowed or there, and in production all parts, provenance, telemetry and restore tests are switched on |
| RuntimeReports.RefusedRuntimeIff | src/v3_aidlc/runtime_config.py:156-185 | each refusal comes exactly when its step is the first that fails: the profile, the environment, the layers, the assembled profile; a runtime names its profile, the digest of its configuration and, in order, the layers that had something to say |
| ServiceLevels.PercentileIsSound | src/v3_aidlc/operations.py:160-169 | latencies and recovery times, at the percentile asked for or 0.95, are reported as a sample with at least n times p, less a millionth, samples at most it and fewer than n times p below it; met means budget remains |
| ServiceLevels.NearestRankIff | src/v3_aidlc/operations.py:165 | the index read is the nearest rank exactly when n times p is below one, whole, or at least a millionth above a whole number, and else one lower |
| ServiceLevels.OneRankLow | src/v3_aidlc/operations.py:165 | two samples at percentile 0.50000025 read the lower one |
| ServiceLevels.RatioIsSound | src/v3_aidlc/operations.py:153-159 | availability, success ratio and durability are reported as the mean, between zero and one, and met means exactly that the error budget is not overspent |
| ServiceLevels.EvaluationIgnoresOrder | src/v3_aidlc/operations.py:147-170 | permuting the samples changes nothing |
| ServiceLevels.RefusedEvaluationIff | src/v3_aidlc/operations.py:136-164 | each refusal comes exactly when its check is the first that fails: target, minimum, number of samples, negative samples, ratios above one, percentile |

## Left out

- Library behaviour: SHA-256, JSON encoding and size, timestamp parsing and regular expressions are parameters or absorbed by types.
- Type and blank-string checks of the validators are absorbed by types, except where a rule or a proof depends on them; a raised error keeps the check that raised it, not the offending name.
- Python's `True == 1`, float rounding and JavaScript's non-finite numbers: values are typed and numbers exact.
- Lower-casing is modelled on ASCII letters.
- Wording: gate reasons and review-gate reasons are tagged values, recovery reasons and trace summaries are dropped; scheduler reasons, context exclusions and trace reasons are the real texts.
- Recovery looks up an effect observation only under a string key; the source would look up any hashable one.
- Authorization, context compilation, negotiation, dispatch, adapters, the acceptance gate and the integration batch are services of the orchestrator: arbitrary functions that may raise; only ControlledRuns takes the acceptance gate to be the evidence gate. What an adapter did before a later exception is not part of the trace and not modelled.
- Route and mode selection, the activation decision and the contents of the integration batch enter the orchestrator as values.
- OrchestratorProperties.EveryDispatchIsEarned: says nothing about the order of events of different work items, because the program promises none.
- EnvironmentOverrides.UpperCaseOverridesAreTheirPaths: is about values that are no objects; LastWriterDecides covers the others.
- RuntimeProfiles.AssembleRuntime: canonical JSON and SHA-256 are one hash parameter, the profile kind is one of four by its type, and a telemetry or recovery section that is no object is refused like a missing setting.
- EnvironmentEngine.InsertAlong: says nothing of the dictionaries an insertion made before it was refused, because the error discards them.
- RepairLoop.RunLifecycle: the identity fields that every call passes on unchanged and the collection time of evidence are dropped; a store that itself throws is not modelled, because the in-memory store never does.
- ReviewGate.EvaluateGate: a rule's independent-evaluator flag is dropped, because the code never reads it.
- WorkPackageStore.Database.CreateProject: descriptive columns are dropped, and so are the rows of plans, because a repeated one repeats the id of its creation event and is refused anyway. A project's requirements, plans and packages are read through their parents, so of what the reading back checks only the texts of the project and the missing criteria can fail.
- Events of other records are logged whatever rows and foreign keys their own tables have, which admits more interleavings than the program does.
- QuotaStore.QuotaRow.Consume: rows of other organizations and dimensions are separate and not modelled.
- Database isolation below one atomic read and one atomic conditional write; retries by callers.
- Learning and finding records, telemetry, budgets, restore checks, migrations, usage aggregation, security, governance, evaluations, analytics, the conversational gateway, Git and GitHub access, the command line and the user interface: single-pass checks, counting, or input and output.
