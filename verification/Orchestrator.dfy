/** The reference orchestrator: authorize, compile context, negotiate, schedule, dispatch, judge and
    integrate the work of one scenario, and leave a hash-linked trace of it. Authorization, context
    compilation, negotiation, dispatch, adapters, gates and integration are the scenario's services. */
module Orchestrator {
  import opened Orders
  import opened Collections
  import opened Text
  import opened Json
  import EventLog
  import Scheduler
  import EvidenceGates

  // ---------------------------------------------------------------- entities

  datatype AuthorizationDecision =
    AutoProceed | AutoProceedAndRecord | AutoProceedWithinBudget | UserDecisionRequired | Blocked

  predicate MayProceed(d: AuthorizationDecision) {
    d == AutoProceed || d == AutoProceedAndRecord || d == AutoProceedWithinBudget
  }

  function DecisionText(d: AuthorizationDecision): string {
    match d
    case AutoProceed => "auto_proceed"
    case AutoProceedAndRecord => "auto_proceed_and_record"
    case AutoProceedWithinBudget => "auto_proceed_within_budget"
    case UserDecisionRequired => "user_decision_required"
    case Blocked => "blocked"
  }

  datatype Authorization = Authorization(
    decision: AuthorizationDecision, explanation: string, controllingRules: seq<string>)

  datatype ContextManifest = ContextManifest(manifestId: string, sha256: string, totalBytes: nat)

  datatype Negotiated = Negotiated(adapterId: string, profileDigest: string, otherReasons: seq<string>)

  datatype RunStatus = RunCompleted | RunFailed | RunBlocked | RunCancelled

  function RunStatusText(s: RunStatus): string {
    match s
    case RunCompleted => "completed"
    case RunFailed => "failed"
    case RunBlocked => "blocked"
    case RunCancelled => "cancelled"
  }

  datatype RunResult = RunResult(status: RunStatus, evidenceIds: seq<string>)

  /** One proposed piece of work. `givenRunId` is the run id of its request, if it has one, `hasGate` says it
      carries an acceptance gate, `integrates` that it carries an integration completion. */
  datatype WorkItem = WorkItem(
    candidate: Scheduler.Candidate, givenRunId: Option<string>, externalSideEffectPossible: bool,
    hasGate: bool, integrates: bool)

  /** What the run of an item is recorded under: its own id, or that of its package. */
  function RunLabel(item: WorkItem): string {
    if item.givenRunId.Some? then item.givenRunId.value else item.candidate.workPackageId
  }

  datatype Completion = Completion(workPackageId: string, evidenceIds: seq<string>)

  datatype IntegrationStatus = IntegrationPassed | IntegrationFailed | IntegrationInconclusive | IntegrationBlocked

  /** What a completed integration run can report. */
  datatype BatchStatus = BatchPassed | BatchFailed | BatchInconclusive

  datatype GateReport = GateReport(outcome: EvidenceGates.GateOutcome, reasons: seq<string>)

  datatype IntegrationRequest = IntegrationRequest(givenBatchId: Option<string>, members: set<string>)

  function BatchLabel(q: IntegrationRequest): string {
    if q.givenBatchId.Some? then q.givenBatchId.value else "unknown"
  }

  /** The boundaries of the orchestrator. `None` is an exception that ends the run; a rejected context
      or negotiation is a governed outcome and carries its reason. */
  datatype Services = Services(
    authorize: WorkItem -> Option<Authorization>,
    compile: WorkItem -> Result<ContextManifest, string>,
    negotiate: (WorkItem, ContextManifest, AuthorizationDecision) -> Result<Negotiated, string>,
    dispatch: (WorkItem, Negotiated) -> Option<string>,
    invoke: (WorkItem, string) -> Option<RunResult>,
    gate: WorkItem -> Option<GateReport>,
    integrate: (IntegrationRequest, seq<Completion>) -> Option<BatchStatus>)

  datatype Activation = StayConversational | StartManagedIntake | AttachExistingProject | ClarifyProjectIdentity

  datatype Scenario = Scenario(
    scenarioId: string, projectId: string, stateRevision: string, now: string, stage: string,
    activation: Activation, routeId: string, modeIds: seq<string>, work: seq<WorkItem>,
    reservations: seq<Scheduler.Reservation>, policy: Scheduler.Policy,
    completedDependencies: seq<string>, currentRevisions: map<string, string>,
    integration: Option<IntegrationRequest>)

  // ---------------------------------------------------------------- events

  datatype LogEntry = LogEntry(eventType: string, aggregateType: string, aggregateId: string, payload: Object)

  /** What every event of one run shares. */
  datatype Header = Header(projectId: string, correlationId: string, occurredAt: string)

  function EventIdText(number: nat): string {
    "TRACE-EVT-" + Padded(number)
  }

  function KeyText(e: LogEntry, number: nat, h: Header): string {
    h.correlationId + ":" + Decimal(number) + ":" + e.eventType + ":" + e.aggregateId
  }

  function EventDraft(e: LogEntry, number: nat, causation: string, h: Header): Object {
    var base: Object := map[
      "schemaVersion" := JStr("0.1"),
      "eventId" := JStr(EventIdText(number)),
      "projectId" := JStr(h.projectId),
      "streamId" := JStr("project:" + h.projectId),
      "eventType" := JStr(e.eventType),
      "aggregateType" := JStr(e.aggregateType),
      "aggregateId" := JStr(e.aggregateId),
      "occurredAt" := JStr(h.occurredAt),
      "recordedAt" := JStr(h.occurredAt),
      "actor" := JObj(map["type" := JStr("project_lead"), "id" := JStr("reference-project-lead")]),
      "idempotencyKey" := JStr(KeyText(e, number, h)),
      "correlationId" := JStr(h.correlationId),
      "payload" := JObj(e.payload)];
    if causation == "" then base else base["causationId" := JStr(causation)]
  }

  /** The draft of the record at position `i` of a log: numbered from one, caused by the one before. */
  function DraftAt(log: seq<LogEntry>, i: nat, h: Header): Object
    requires i < |log|
  {
    EventDraft(log[i], i + 1, if i == 0 then "" else EventIdText(i), h)
  }

  function Drafts(log: seq<LogEntry>, h: Header): seq<Object> {
    seq(|log|, i requires 0 <= i < |log| => DraftAt(log, i, h))
  }

  function History(log: seq<LogEntry>, h: Header, p: EventLog.Platform): Option<seq<Object>> {
    match EventLog.AppendAll(p, [], Drafts(log, h))
    case Success(events) => Some(events)
    case Failure(_) => None
  }

  function Started(sc: Scenario): LogEntry {
    LogEntry("orchestration.started", "project", sc.projectId,
             map["routeId" := JStr(sc.routeId), "stage" := JStr(sc.stage), "modeIds" := Strings(sc.modeIds)])
  }

  function Strings(xs: seq<string>): Json {
    JArr(Map((x: string) => JStr(x), xs))
  }

  function AuthorizedEntry(item: WorkItem, a: Authorization): LogEntry {
    LogEntry("authorization.evaluated", "work-package", item.candidate.workPackageId,
             map["decision" := JStr(DecisionText(a.decision)), "controllingRules" := Strings(a.controllingRules)])
  }

  function NegotiatedEntry(item: WorkItem, n: Negotiated): LogEntry {
    LogEntry("capability.negotiated", "agent-run", RunLabel(item),
             map["adapterId" := JStr(n.adapterId), "profileDigest" := JStr(n.profileDigest)])
  }

  function PlannedEntry(projectId: string, plan: Scheduler.SchedulePlan): LogEntry {
    LogEntry("schedule.planned", "project", projectId, map["selected" := Strings(plan.selected)])
  }

  function DispatchedEntry(item: WorkItem, digest: string): LogEntry {
    LogEntry("run.dispatched", "agent-run", RunLabel(item),
             map["runId" := JStr(RunLabel(item)), "workPackageId" := JStr(item.candidate.workPackageId),
                 "dispatchDigest" := JStr(digest),
                 "externalSideEffectPossible" := JBool(item.externalSideEffectPossible)])
  }

  function CompletedEntry(item: WorkItem, r: RunResult): LogEntry {
    LogEntry("run.completed", "agent-run", RunLabel(item),
             map["runId" := JStr(RunLabel(item)), "status" := JStr(RunStatusText(r.status))])
  }

  function OutcomeText(o: EvidenceGates.GateOutcome): string {
    match o
    case GatePassed => "passed"
    case GatePassedWithException => "passed_with_exception"
    case GateFailed => "failed"
    case GateInconclusive => "inconclusive"
  }

  function GateEntry(item: WorkItem, o: EvidenceGates.GateOutcome): LogEntry {
    LogEntry("gate.evaluated", "work-package", item.candidate.workPackageId,
             map["outcome" := JStr(OutcomeText(o)), "promotable" := JBool(EvidenceGates.Promotable(o))])
  }

  function RejectedEntry(eventType: string, aggregateType: string, aggregateId: string, reason: string): LogEntry {
    LogEntry(eventType, aggregateType, aggregateId, map["reason" := JStr(reason)])
  }

  // ---------------------------------------------------------------- first pass: prepare every item

  datatype Preparation =
    | Unauthorized(authorization: Authorization)
    | NoContext(authorization: Authorization, reason: string)
    | NoAdapter(authorization: Authorization, manifest: ContextManifest, reason: string)
    | Ready(authorization: Authorization, manifest: ContextManifest, negotiated: Negotiated)

  /** Compiling the context of an authorized item and negotiating its adapter; going on without a run id
      raises. */
  function Equip(s: Services, item: WorkItem, a: Authorization): Option<Preparation> {
    match s.compile(item)
    case Failure(reason) => Some(NoContext(a, reason))
    case Success(m) =>
      match s.negotiate(item, m, a.decision)
      case Failure(reason) => Some(NoAdapter(a, m, reason))
      case Success(n) => if item.givenRunId.None? then None else Some(Ready(a, m, n))
  }

  function Prepare(s: Services, item: WorkItem): Option<Preparation> {
    match s.authorize(item)
    case None => None
    case Some(a) => if MayProceed(a.decision) then Equip(s, item, a) else Some(Unauthorized(a))
  }

  function PrepareAll(s: Services, items: seq<WorkItem>): (r: Option<seq<Preparation>>)
    ensures r.Some? ==> |r.value| == |items|
  {
    if items == [] then Some([])
    else
      match PrepareAll(s, items[..|items| - 1])
      case None => None
      case Some(front) =>
        match Prepare(s, items[|items| - 1])
        case None => None
        case Some(last) => Some(front + [last])
  }

  function EquipLog(item: WorkItem, prep: Preparation): seq<LogEntry> {
    match prep
    case Unauthorized(_) => []
    case NoContext(_, reason) =>
      [RejectedEntry("context.rejected", "work-package", item.candidate.workPackageId, reason)]
    case NoAdapter(_, _, reason) => [RejectedEntry("capability.rejected", "agent-run", RunLabel(item), reason)]
    case Ready(_, _, n) => [NegotiatedEntry(item, n)]
  }

  function PrepareLog(item: WorkItem, prep: Preparation): seq<LogEntry> {
    [AuthorizedEntry(item, prep.authorization)] + EquipLog(item, prep)
  }

  /** The candidate a prepared item enters the schedule with. */
  function Prepared(item: WorkItem, prep: Preparation): Scheduler.Candidate
    requires prep.Ready?
  {
    item.candidate.(adapterId := prep.negotiated.adapterId)
  }

  function ReadyCandidates(items: seq<WorkItem>, preps: seq<Preparation>): seq<Scheduler.Candidate>
    requires |items| == |preps|
  {
    if items == [] then []
    else
      var n := |items| - 1;
      ReadyCandidates(items[..n], preps[..n]) + (if preps[n].Ready? then [Prepared(items[n], preps[n])] else [])
  }

  // ---------------------------------------------------------------- scheduling

  function SchedulingContext(sc: Scenario, now: int): Scheduler.Context {
    Scheduler.Context(sc.policy, (set d | d in sc.completedDependencies), sc.currentRevisions, sc.stateRevision, now)
  }

  datatype Planning = NothingToPlan | Planned(plan: Scheduler.SchedulePlan)

  function PlanWork(sc: Scenario, candidates: seq<Scheduler.Candidate>, p: EventLog.Platform): Option<Planning> {
    if candidates == [] then Some(NothingToPlan)
    else if p.time(sc.now).None? then None
    else
      match Scheduler.Plan(candidates, sc.reservations, SchedulingContext(sc, p.time(sc.now).value))
      case Failure(_) => None
      case Success(plan) => Some(Planned(plan))
  }

  function EntryId(): Scheduler.Entry -> string {
    (e: Scheduler.Entry) => e.workPackageId
  }

  // ---------------------------------------------------------------- second pass: run what was selected

  datatype Execution =
    | NotRun
    | Waiting(reasons: seq<string>)
    | Ran(digest: string, result: RunResult, gate: Option<GateReport>)

  /** The gate of a completed run that has one; the outer `None` is an exception. */
  function GateFor(s: Services, item: WorkItem, result: RunResult): Option<Option<GateReport>> {
    if result.status == RunCompleted && item.hasGate then
      match s.gate(item)
      case None => None
      case Some(report) => Some(Some(report))
    else Some(None)
  }

  function RunSelected(s: Services, item: WorkItem, n: Negotiated): Option<Execution> {
    match s.dispatch(item, n)
    case None => None
    case Some(digest) =>
      match s.invoke(item, digest)
      case None => None
      case Some(result) =>
        match GateFor(s, item, result)
        case None => None
        case Some(gate) => Some(Ran(digest, result, gate))
  }

  function RunOne(
      s: Services, item: WorkItem, prep: Preparation, decisions: map<string, Scheduler.Entry>): Option<Execution> {
    if !prep.Ready? then Some(NotRun)
    else if item.candidate.workPackageId !in decisions then None
    else
      var entry := decisions[item.candidate.workPackageId];
      if entry.decision == Scheduler.Deferred then Some(Waiting(entry.reasons))
      else RunSelected(s, item, prep.negotiated)
  }

  function RunAll(s: Services, items: seq<WorkItem>, preps: seq<Preparation>, decisions: map<string, Scheduler.Entry>):
    (r: Option<seq<Execution>>)
    requires |items| == |preps|
    ensures r.Some? ==> |r.value| == |items|
  {
    if items == [] then Some([])
    else
      var n := |items| - 1;
      match RunAll(s, items[..n], preps[..n], decisions)
      case None => None
      case Some(front) =>
        match RunOne(s, items[n], preps[n], decisions)
        case None => None
        case Some(last) => Some(front + [last])
  }

  function GateLog(item: WorkItem, gate: Option<GateReport>): seq<LogEntry> {
    if gate.Some? then [GateEntry(item, gate.value.outcome)] else []
  }

  function RunLog(item: WorkItem, run: Execution): seq<LogEntry> {
    match run
    case Ran(digest, result, gate) =>
      [DispatchedEntry(item, digest), CompletedEntry(item, result)] + GateLog(item, gate)
    case _ => []
  }

  /** The run completed and its own acceptance gate is promotable. */
  predicate AcceptedRun(run: Execution) {
    run.Ran? && run.result.status == RunCompleted && run.gate.Some? && EvidenceGates.Promotable(run.gate.value.outcome)
  }

  function Completions(items: seq<WorkItem>, runs: seq<Execution>): seq<Completion>
    requires |items| == |runs|
  {
    if items == [] then []
    else
      var n := |items| - 1;
      Completions(items[..n], runs[..n])
      + (if AcceptedRun(runs[n]) && items[n].integrates then
           [Completion(items[n].candidate.workPackageId, runs[n].result.evidenceIds)]
         else [])
  }

  // ---------------------------------------------------------------- integration and status

  datatype Integration = NotRequested | MembersMissing | Judged(status: BatchStatus)

  function Integrate(s: Services, request: Option<IntegrationRequest>, done: seq<Completion>): Option<Integration> {
    match request
    case None => Some(NotRequested)
    case Some(q) =>
      if q.members != (set c | c in done :: c.workPackageId) then Some(MembersMissing)
      else if done == [] || q.givenBatchId.None? then None
      else
        match s.integrate(q, done)
        case None => None
        case Some(status) => Some(Judged(status))
  }

  function BatchText(s: BatchStatus): string {
    match s
    case BatchPassed => "passed"
    case BatchFailed => "failed"
    case BatchInconclusive => "inconclusive"
  }

  function StatusIn(i: Integration): Option<IntegrationStatus> {
    match i
    case NotRequested => None
    case MembersMissing => Some(IntegrationBlocked)
    case Judged(BatchPassed) => Some(IntegrationPassed)
    case Judged(BatchFailed) => Some(IntegrationFailed)
    case Judged(BatchInconclusive) => Some(IntegrationInconclusive)
  }

  function IntegrationLog(request: Option<IntegrationRequest>, done: seq<Completion>, i: Integration): seq<LogEntry> {
    if request.None? then []
    else
      match i
      case NotRequested => []
      case MembersMissing =>
        [LogEntry("integration.blocked", "integration-batch", BatchLabel(request.value),
                  map["expectedMembers" := Strings(SortedSet(request.value.members)),
                      "readyMembers" := Strings(SortedSet(set c | c in done :: c.workPackageId))])]
      case Judged(status) =>
        [LogEntry("integration.evaluated", "integration-batch", BatchLabel(request.value),
                  map["status" := JStr(BatchText(status))])]
  }

  datatype TraceStatus = NotManaged | Completed | WaitingStatus | DecisionRequired | BlockedStatus | FailedStatus

  function StatusText(s: TraceStatus): string {
    match s
    case NotManaged => "not_managed"
    case Completed => "completed"
    case WaitingStatus => "waiting"
    case DecisionRequired => "decision_required"
    case BlockedStatus => "blocked"
    case FailedStatus => "failed"
  }

  predicate HardBlock(prep: Preparation) {
    match prep
    case Unauthorized(a) => a.decision == Blocked
    case NoContext(_, _) => true
    case NoAdapter(_, _, _) => true
    case Ready(_, _, _) => false
  }

  predicate NeedsDecision(prep: Preparation) {
    prep.Unauthorized? && prep.authorization.decision == UserDecisionRequired
  }

  predicate FailsRun(run: Execution) {
    run.Ran? && !AcceptedRun(run)
  }

  function StatusOf(preps: seq<Preparation>, runs: seq<Execution>, i: Integration): TraceStatus {
    if exists x :: x in preps && HardBlock(x) then BlockedStatus
    else if exists x :: x in preps && NeedsDecision(x) then DecisionRequired
    else if (exists x :: x in runs && FailsRun(x)) || (i != NotRequested && i != Judged(BatchPassed)) then FailedStatus
    else if exists x :: x in runs && x.Waiting? then WaitingStatus
    else Completed
  }

  // ---------------------------------------------------------------- the trace

  datatype WorkDecision = NotEligible | Pending | SelectedToRun | DeferredToWait

  datatype WorkTrace = WorkTrace(
    workPackageId: string, authorization: AuthorizationDecision, explanation: string,
    manifestId: Option<string>, adapterId: Option<string>, decision: WorkDecision,
    runStatus: Option<RunStatus>, gateOutcome: Option<EvidenceGates.GateOutcome>, reasons: seq<string>)

  datatype Trace = Trace(
    scenarioId: string, projectId: string, status: TraceStatus, activation: Activation, routeId: string,
    stage: string, modeIds: seq<string>, stateRevision: string, work: seq<WorkTrace>,
    plan: Option<Scheduler.SchedulePlan>, batchId: Option<string>,
    integrationStatus: Option<IntegrationStatus>, events: seq<Object>)

  function RunReasons(run: Execution): seq<string> {
    if !run.Ran? then []
    else if run.gate.Some? then run.gate.value.reasons
    else if run.result.status == RunCompleted then ["completed run has no acceptance Gate"]
    else ["run ended as " + RunStatusText(run.result.status)]
  }

  function GateOutcomeIn(run: Execution): Option<EvidenceGates.GateOutcome> {
    if run.Ran? && run.gate.Some? then Some(run.gate.value.outcome) else None
  }

  function WorkTraceOf(item: WorkItem, prep: Preparation, run: Execution): WorkTrace {
    var a := prep.authorization;
    var id := item.candidate.workPackageId;
    match prep
    case Unauthorized(_) =>
      WorkTrace(id, a.decision, a.explanation, None, None, NotEligible, None, None, [a.explanation])
    case NoContext(_, reason) =>
      WorkTrace(id, a.decision, a.explanation, None, None, NotEligible, None, None,
                ["context compilation failed: " + reason])
    case NoAdapter(_, m, reason) =>
      WorkTrace(id, a.decision, a.explanation, Some(m.manifestId), None, NotEligible, None, None,
                ["capability negotiation failed: " + reason])
    case Ready(_, m, n) =>
      match run
      case NotRun =>
        WorkTrace(id, a.decision, a.explanation, Some(m.manifestId), Some(n.adapterId), Pending, None, None,
                  n.otherReasons)
      case Waiting(reasons) =>
        WorkTrace(id, a.decision, a.explanation, Some(m.manifestId), Some(n.adapterId), DeferredToWait, None, None,
                  reasons)
      case Ran(_, result, _) =>
        WorkTrace(id, a.decision, a.explanation, Some(m.manifestId), Some(n.adapterId), SelectedToRun,
                  Some(result.status), GateOutcomeIn(run), n.otherReasons + RunReasons(run))
  }

  function PrepareLogs(items: seq<WorkItem>, preps: seq<Preparation>): seq<seq<LogEntry>>
    requires |items| == |preps|
  {
    seq(|items|, i requires 0 <= i < |items| => PrepareLog(items[i], preps[i]))
  }

  function RunLogs(items: seq<WorkItem>, runs: seq<Execution>): seq<seq<LogEntry>>
    requires |items| == |runs|
  {
    seq(|items|, i requires 0 <= i < |items| => RunLog(items[i], runs[i]))
  }

  function PlanLog(sc: Scenario, planning: Planning): seq<LogEntry> {
    if planning.Planned? then [PlannedEntry(sc.projectId, planning.plan)] else []
  }

  function LastEntry(sc: Scenario, status: TraceStatus): LogEntry {
    LogEntry("orchestration.completed", "project", sc.projectId, map["status" := JStr(StatusText(status))])
  }

  /** Everything one managed run does, before it is written down. */
  datatype Course = Course(
    preps: seq<Preparation>, planning: Planning, runs: seq<Execution>, integration: Integration)

  function LogOf(sc: Scenario, c: Course): seq<LogEntry>
    requires |c.preps| == |sc.work| && |c.runs| == |sc.work|
  {
    [Started(sc)] + Flatten(PrepareLogs(sc.work, c.preps)) + PlanLog(sc, c.planning)
    + Flatten(RunLogs(sc.work, c.runs))
    + IntegrationLog(sc.integration, Completions(sc.work, c.runs), c.integration)
    + [LastEntry(sc, StatusOf(c.preps, c.runs, c.integration))]
  }

  function HeaderOf(sc: Scenario): Header {
    Header(sc.projectId, sc.scenarioId, sc.now)
  }

  function Package(): WorkItem -> string {
    (i: WorkItem) => i.candidate.workPackageId
  }

  function Decisions(planning: Planning): map<string, Scheduler.Entry> {
    if planning.Planned? then IndexBy(planning.plan.entries, EntryId()) else map[]
  }

  /** The course of a managed run, unless something raises. */
  function Pursue(s: Services, sc: Scenario, p: EventLog.Platform): (r: Option<Course>)
    ensures r.Some? ==> |r.value.preps| == |sc.work| && |r.value.runs| == |sc.work|
  {
    if sc.work == [] || !NoDuplicates(Map(Package(), sc.work)) then None
    else
      match PrepareAll(s, sc.work)
      case None => None
      case Some(preps) =>
        match PlanWork(sc, ReadyCandidates(sc.work, preps), p)
        case None => None
        case Some(planning) =>
          match RunAll(s, sc.work, preps, Decisions(planning))
          case None => None
          case Some(runs) =>
            match Integrate(s, sc.integration, Completions(sc.work, runs))
            case None => None
            case Some(integration) => Some(Course(preps, planning, runs, integration))
  }

  function WorkTraces(items: seq<WorkItem>, preps: seq<Preparation>, runs: seq<Execution>): seq<WorkTrace>
    requires |items| == |preps| == |runs|
  {
    seq(|items|, i requires 0 <= i < |items| => WorkTraceOf(items[i], preps[i], runs[i]))
  }

  function TraceOf(sc: Scenario, c: Course, events: seq<Object>): Trace
    requires |c.preps| == |sc.work| && |c.runs| == |sc.work|
  {
    Trace(
      sc.scenarioId, sc.projectId, StatusOf(c.preps, c.runs, c.integration), sc.activation, sc.routeId,
      sc.stage, sc.modeIds, sc.stateRevision, WorkTraces(sc.work, c.preps, c.runs),
      if c.planning.Planned? then Some(c.planning.plan) else None,
      if c.integration.Judged? && sc.integration.Some? then Some(BatchLabel(sc.integration.value)) else None,
      StatusIn(c.integration),
      events)
  }

  function Conversational(sc: Scenario): Trace {
    Trace(sc.scenarioId, sc.projectId, NotManaged, sc.activation, "none", sc.stage, [], sc.stateRevision,
          [], None, None, None, [])
  }

  function WorkId(): WorkTrace -> string {
    (w: WorkTrace) => w.workPackageId
  }

  /** The checks a finished trace has to pass. */
  predicate ValidTrace(t: Trace, p: EventLog.Platform) {
    && !Blank(t.scenarioId) && !Blank(t.projectId) && !Blank(t.routeId) && !Blank(t.stage) && !Blank(t.stateRevision)
    && NoDuplicates(Map(WorkId(), t.work))
    && (t.status == NotManaged ==> t.events == [] && t.plan.None? && t.batchId.None?)
    && (t.status != NotManaged ==>
          && t.events != [] && EventLog.FirstFault(p, t.events, 0).None?
          && (forall e :: e in t.events ==> Field(e, "projectId") == JStr(t.projectId))
          && (t.plan.Some? ==>
                (set w | w in t.plan.value.selected)
                == (set w | w in t.work && w.decision == SelectedToRun :: w.workPackageId))
          && (t.integrationStatus == Some(IntegrationPassed) ==> t.batchId.Some?))
  }

  /** The texts every scenario has to give. */
  predicate Named(sc: Scenario) {
    !Blank(sc.scenarioId) && !Blank(sc.projectId) && !Blank(sc.stateRevision) && !Blank(sc.now) && !Blank(sc.stage)
  }

  /** The scenario asks for a managed run and names what that takes. */
  predicate ToManage(sc: Scenario) {
    sc.activation != StayConversational && Named(sc) && !Blank(sc.routeId)
  }

  /** The trace of a scenario, or `None` when the run raises. */
  function Execute(s: Services, sc: Scenario, p: EventLog.Platform): Option<Trace> {
    if !Named(sc) then None
    else if sc.activation == StayConversational then Some(Conversational(sc))
    else if Blank(sc.routeId) then None
    else
      match Pursue(s, sc, p)
      case None => None
      case Some(c) =>
        match History(LogOf(sc, c), HeaderOf(sc), p)
        case None => None
        case Some(events) =>
          var trace := TraceOf(sc, c, events);
          if ValidTrace(trace, p) then Some(trace) else None
  }
}
