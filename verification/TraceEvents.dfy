/** The events of a managed trace, read off the scenario, its services and the work entries alone: the story they tell,
    event by event, and what every event carries besides. */
module TraceEvents {
  import opened Orders
  import opened Collections
  import opened Json
  import opened Text
  import opened Orchestrator
  import opened OrchestratorProperties
  import EventLog
  import EventLogProperties
  import EvidenceGates

  // ---------------------------------------------------------------- the story

  ghost function DecisionWord(d: AuthorizationDecision): string {
    if d == Blocked then "blocked"
    else if d == UserDecisionRequired then "user_decision_required"
    else if d == AutoProceedWithinBudget then "auto_proceed_within_budget"
    else if d == AutoProceedAndRecord then "auto_proceed_and_record"
    else "auto_proceed"
  }

  ghost function RunWord(r: RunStatus): string {
    if r == RunFailed then "failed"
    else if r == RunBlocked then "blocked"
    else if r == RunCancelled then "cancelled"
    else "completed"
  }

  ghost function GateWord(o: EvidenceGates.GateOutcome): string {
    if o == EvidenceGates.GateFailed then "failed"
    else if o == EvidenceGates.GateInconclusive then "inconclusive"
    else if o == EvidenceGates.GatePassedWithException then "passed_with_exception"
    else "passed"
  }

  ghost function StatusWord(x: TraceStatus): string {
    if x == FailedStatus then "failed"
    else if x == BlockedStatus then "blocked"
    else if x == DecisionRequired then "decision_required"
    else if x == WaitingStatus then "waiting"
    else if x == Completed then "completed"
    else "not_managed"
  }

  ghost function Texts(xs: seq<string>): Json {
    JArr(seq(|xs|, i requires 0 <= i < |xs| => JStr(xs[i])))
  }

  lemma TextsAre(xs: seq<string>)
    ensures Strings(xs) == Texts(xs)
  {
  }

  /** The id a request gave, or else another. */
  ghost function GivenOr(given: Option<string>, other: string): string {
    match given
    case Some(id) => id
    case None => other
  }

  /** What preparing an item leaves: its authorization, and how far it then got. */
  ghost function PreparationStory(item: WorkItem, s: Services): seq<LogEntry> {
    var id := item.candidate.workPackageId;
    var run := GivenOr(item.givenRunId, id);
    match s.authorize(item)
    case None => []
    case Some(a) =>
      [LogEntry("authorization.evaluated", "work-package", id,
                map["decision" := JStr(DecisionWord(a.decision)), "controllingRules" := Texts(a.controllingRules)])]
      + if a.decision == UserDecisionRequired || a.decision == Blocked then []
        else
          match s.compile(item)
          case Failure(reason) => [LogEntry("context.rejected", "work-package", id, map["reason" := JStr(reason)])]
          case Success(m) =>
            match s.negotiate(item, m, a.decision)
            case Failure(reason) => [LogEntry("capability.rejected", "agent-run", run, map["reason" := JStr(reason)])]
            case Success(n) =>
              [LogEntry("capability.negotiated", "agent-run", run,
                        map["adapterId" := JStr(n.adapterId), "profileDigest" := JStr(n.profileDigest)])]
  }

  /** The digest an item is dispatched with. */
  ghost function DigestOf(item: WorkItem, s: Services): string {
    match s.authorize(item)
    case None => ""
    case Some(a) =>
      match s.compile(item)
      case Failure(_) => ""
      case Success(m) =>
        match s.negotiate(item, m, a.decision)
        case Failure(_) => ""
        case Success(n) => match s.dispatch(item, n) case None => "" case Some(digest) => digest
  }

  /** What running an item leaves, if it was selected: its dispatch, its completion and its gate. */
  ghost function RunStory(item: WorkItem, w: WorkTrace, s: Services): seq<LogEntry> {
    var id := item.candidate.workPackageId;
    var run := GivenOr(item.givenRunId, id);
    if w.decision != SelectedToRun || w.runStatus == None then []
    else
      [LogEntry("run.dispatched", "agent-run", run,
                map["runId" := JStr(run), "workPackageId" := JStr(id), "dispatchDigest" := JStr(DigestOf(item, s)),
                    "externalSideEffectPossible" := JBool(item.externalSideEffectPossible)]),
       LogEntry("run.completed", "agent-run", run,
                map["runId" := JStr(run), "status" := JStr(RunWord(w.runStatus.value))])]
      + match w.gateOutcome
        case None => []
        case Some(o) =>
          [LogEntry("gate.evaluated", "work-package", id,
                    map["outcome" := JStr(GateWord(o)),
                        "promotable" := JBool(o == EvidenceGates.GatePassed
                                              || o == EvidenceGates.GatePassedWithException)])]
  }

  /** The members of the batch that are ready: accepted work that carries a completion. */
  ghost function ReadyMembers(sc: Scenario, t: Trace): set<string> {
    set i | 0 <= i < |sc.work| && i < |t.work| && FullyAccepted(t.work[i]) && sc.work[i].integrates
      :: sc.work[i].candidate.workPackageId
  }

  ghost function IntegrationStory(sc: Scenario, t: Trace): seq<LogEntry> {
    match sc.integration
    case None => []
    case Some(q) =>
      var batch := GivenOr(q.givenBatchId, "unknown");
      match t.integrationStatus
      case None => []
      case Some(IntegrationBlocked) =>
        [LogEntry("integration.blocked", "integration-batch", batch,
                  map["expectedMembers" := Texts(SortedSet(q.members)),
                      "readyMembers" := Texts(SortedSet(ReadyMembers(sc, t)))])]
      case Some(IntegrationPassed) =>
        [LogEntry("integration.evaluated", "integration-batch", batch, map["status" := JStr("passed")])]
      case Some(IntegrationFailed) =>
        [LogEntry("integration.evaluated", "integration-batch", batch, map["status" := JStr("failed")])]
      case Some(IntegrationInconclusive) =>
        [LogEntry("integration.evaluated", "integration-batch", batch, map["status" := JStr("inconclusive")])]
  }

  ghost function PlanStory(sc: Scenario, t: Trace): seq<LogEntry> {
    match t.plan
    case None => []
    case Some(plan) => [LogEntry("schedule.planned", "project", sc.projectId, map["selected" := Texts(plan.selected)])]
  }

  /** The whole run: started, every item prepared, the schedule, every selected item run, the batch, completed. */
  ghost function Story(s: Services, sc: Scenario, t: Trace): seq<LogEntry>
    requires |t.work| == |sc.work|
  {
    [LogEntry("orchestration.started", "project", sc.projectId,
              map["routeId" := JStr(sc.routeId), "stage" := JStr(sc.stage), "modeIds" := Texts(sc.modeIds)])]
    + Flatten(seq(|sc.work|, i requires 0 <= i < |sc.work| => PreparationStory(sc.work[i], s)))
    + PlanStory(sc, t)
    + Flatten(seq(|sc.work|, i requires 0 <= i < |sc.work| => RunStory(sc.work[i], t.work[i], s)))
    + IntegrationStory(sc, t)
    + [LogEntry("orchestration.completed", "project", sc.projectId, map["status" := JStr(StatusWord(t.status))])]
  }

  lemma WordsAre()
    ensures forall d :: DecisionText(d) == DecisionWord(d)
    ensures forall r :: RunStatusText(r) == RunWord(r)
    ensures forall o :: OutcomeText(o) == GateWord(o)
    ensures forall x :: StatusText(x) == StatusWord(x)
  {
  }

  lemma PreparationTold(s: Services, item: WorkItem, prep: Preparation)
    requires Prepare(s, item) == Some(prep)
    ensures PrepareLog(item, prep) == PreparationStory(item, s)
  {
    hide DecisionText, DecisionWord, Strings, Texts;
    WordsAre();
    TextsAre(prep.authorization.controllingRules);
  }

  lemma RunTold(s: Services, item: WorkItem, prep: Preparation, run: Execution, planning: Planning)
    requires Prepare(s, item) == Some(prep) && RunOne(s, item, prep, Decisions(planning)) == Some(run)
    ensures RunLog(item, run) == RunStory(item, WorkTraceOf(item, prep, run), s)
  {
    hide RunStatusText, RunWord, OutcomeText, GateWord, Decisions, RunReasons, GateFor;
    WordsAre();
    if run.Ran? {
      assert DigestOf(item, s) == run.digest;
    }
  }

  lemma IntegrationTold(s: Services, sc: Scenario, p: EventLog.Platform, c: Course, t: Trace)
    requires Pursue(s, sc, p) == Some(c) && |t.work| == |sc.work| && t.integrationStatus == StatusIn(c.integration)
    requires ReadyMembers(sc, t) == set x | x in Completions(sc.work, c.runs) :: x.workPackageId
    ensures IntegrationLog(sc.integration, Completions(sc.work, c.runs), c.integration) == IntegrationStory(sc, t)
  {
    hide Pursue, Strings, Texts, Completions, ReadyMembers, SortedSet;
    IntegrationMatches(s, sc, p, c);
    if sc.integration.Some? {
      TextsAre(SortedSet(sc.integration.value.members));
      TextsAre(SortedSet(ReadyMembers(sc, t)));
    }
  }

  lemma {:induction false} CompletionsAre(items: seq<WorkItem>, runs: seq<Execution>)
    requires |items| == |runs|
    ensures forall x :: x in Completions(items, runs) <==>
      exists i :: 0 <= i < |items| && Delivers(items[i], runs[i], x)
  {
    hide AcceptedRun;
    if items == [] {
    } else {
      var n := |items| - 1;
      CompletionsAre(items[..n], runs[..n]);
      forall x
        ensures x in Completions(items, runs) <==> exists i :: 0 <= i < |items| && Delivers(items[i], runs[i], x)
      {
        if i :| 0 <= i < |items| && Delivers(items[i], runs[i], x) {
          if i < n {
            assert Delivers(items[..n][i], runs[..n][i], x);
          }
        }
        if i :| 0 <= i < n && Delivers(items[..n][i], runs[..n][i], x) {
          assert Delivers(items[i], runs[i], x);
        }
        assert x in Completions(items, runs)
          <==> x in Completions(items[..n], runs[..n]) || Delivers(items[n], runs[n], x);
      }
    }
  }

  ghost predicate Delivers(item: WorkItem, run: Execution, x: Completion) {
    && AcceptedRun(run) && item.integrates
    && x == Completion(item.candidate.workPackageId, run.result.evidenceIds)
  }

  lemma MembersAreReady(s: Services, sc: Scenario, p: EventLog.Platform, c: Course, t: Trace)
    requires Pursue(s, sc, p) == Some(c) && t.work == WorkTraces(sc.work, c.preps, c.runs)
    ensures ReadyMembers(sc, t) == set x | x in Completions(sc.work, c.runs) :: x.workPackageId
  {
    hide Pursue, WorkTraceOf, FullyAccepted, Completions, AcceptedRun, Prepare, RunOne, Decisions;
    CompletionsAre(sc.work, c.runs);
    forall i | 0 <= i < |sc.work| ensures FullyAccepted(t.work[i]) <==> AcceptedRun(c.runs[i]) {
      AcceptedMeans(s, sc, p, c, i);
    }
    var done := Completions(sc.work, c.runs);
    var members := set x | x in done :: x.workPackageId;
    forall id | id in ReadyMembers(sc, t) ensures id in members {
      var i :| 0 <= i < |sc.work| && FullyAccepted(t.work[i]) && sc.work[i].integrates
        && id == sc.work[i].candidate.workPackageId;
      RanIsAccepted(c.runs[i]);
      assert Delivers(sc.work[i], c.runs[i], Completion(id, c.runs[i].result.evidenceIds));
    }
    forall id | id in members ensures id in ReadyMembers(sc, t) {
      var x :| x in done && x.workPackageId == id;
      var i :| 0 <= i < |sc.work| && Delivers(sc.work[i], c.runs[i], x);
    }
  }

  lemma RanIsAccepted(run: Execution)
    requires AcceptedRun(run)
    ensures run.Ran?
  {
  }

  lemma AcceptedMeans(s: Services, sc: Scenario, p: EventLog.Platform, c: Course, i: nat)
    requires Pursue(s, sc, p) == Some(c) && i < |sc.work|
    ensures FullyAccepted(WorkTraceOf(sc.work[i], c.preps[i], c.runs[i])) <==> AcceptedRun(c.runs[i])
  {
    hide Pursue, Decisions, RunOne, Prepare, WorkTraceOf, FullyAccepted;
    ItemFacts(s, sc, p, c, i);
    UnauthorizedIsStopped(s, sc.work[i], c.preps[i]);
    WorkTraceMeans(sc.work[i], c.preps[i], c.runs[i]);
  }

  /** The log of a run is its story. */
  lemma LogIsStory(s: Services, sc: Scenario, p: EventLog.Platform, t: Trace, c: Course)
    requires Managed(s, sc, p, t) && Pursue(s, sc, p) == Some(c) && t == TraceOf(sc, c, t.events)
    ensures |t.work| == |sc.work| && LogOf(sc, c) == Story(s, sc, t)
  {
    hide Execute, Pursue, PrepareLog, RunLog, PreparationStory, RunStory, IntegrationLog, IntegrationStory, Flatten,
      StatusOf, Completions, Strings, Texts, WorkTraceOf, Prepare, RunOne, Decisions, History, ReadyMembers,
      StatusText, StatusWord;
    WordsAre();
    TextsAre(sc.modeIds);
    if c.planning.Planned? { TextsAre(c.planning.plan.selected); }
    forall i | 0 <= i < |sc.work| ensures
      && PrepareLog(sc.work[i], c.preps[i]) == PreparationStory(sc.work[i], s)
      && RunLog(sc.work[i], c.runs[i]) == RunStory(sc.work[i], t.work[i], s)
    {
      ItemFacts(s, sc, p, c, i);
      PreparationTold(s, sc.work[i], c.preps[i]);
      RunTold(s, sc.work[i], c.preps[i], c.runs[i], c.planning);
    }
    assert PrepareLogs(sc.work, c.preps)
        == seq(|sc.work|, i requires 0 <= i < |sc.work| => PreparationStory(sc.work[i], s));
    assert RunLogs(sc.work, c.runs)
        == seq(|sc.work|, i requires 0 <= i < |sc.work| => RunStory(sc.work[i], t.work[i], s));
    MembersAreReady(s, sc, p, c, t);
    IntegrationTold(s, sc, p, c, t);
  }

  // ---------------------------------------------------------------- what every event carries

  /** A number written in decimal digits, without zeros in front beyond this width. */
  ghost predicate Writes(digits: string, n: nat, width: nat) {
    && |digits| >= width && ValueOf(digits) == n
    && (forall i :: 0 <= i < |digits| ==> '0' <= digits[i] <= '9')
    && (|digits| > width && |digits| > 1 ==> digits[0] != '0')
  }

  lemma DigitIs(n: nat)
    requires n < 10
    ensures var c := "0123456789"[n]; '0' <= c <= '9' && (n != 0 ==> c != '0')
  {
  }

  lemma {:induction false} DecimalWrites(n: nat)
    ensures Writes(Decimal(n), n, 1) && (n > 0 ==> Decimal(n)[0] != '0')
  {
    hide ValueOf;
    DecimalRoundTrip(n);
    DigitIs(n % 10);
    if n >= 10 {
      DecimalWrites(n / 10);
    }
  }

  lemma PaddedWrites(n: nat)
    requires n > 0
    ensures Writes(Padded(n), n, 4)
  {
    hide ValueOf, Decimal;
    DecimalWrites(n);
    PaddedValue(n);
  }

  /** An event of the orchestrator: the n-th of its run, recorded as it happened, caused by the one before. */
  ghost predicate Carries(e: Object, key: string, v: Json) {
    key in e && e[key] == v
  }

  /** The event says what was recorded, of whom and when. */
  ghost predicate TellsOf(e: Object, r: LogEntry, sc: Scenario) {
    && Carries(e, "schemaVersion", JStr("0.1")) && Carries(e, "projectId", JStr(sc.projectId))
    && Carries(e, "streamId", JStr("project:" + sc.projectId)) && Carries(e, "correlationId", JStr(sc.scenarioId))
    && Carries(e, "eventType", JStr(r.eventType)) && Carries(e, "aggregateType", JStr(r.aggregateType))
    && Carries(e, "aggregateId", JStr(r.aggregateId)) && Carries(e, "payload", JObj(r.payload))
    && Carries(e, "occurredAt", JStr(sc.now)) && Carries(e, "recordedAt", JStr(sc.now))
    && Carries(e, "actor", JObj(map["type" := JStr("project_lead"), "id" := JStr("reference-project-lead")]))
  }

  /** The event is the n-th of its run: its id and its key name the number, and it names what caused it. */
  ghost predicate NumberedAs(e: Object, r: LogEntry, sc: Scenario, n: nat, cause: Option<Json>) {
    && (exists digits :: Writes(digits, n, 4) && Carries(e, "eventId", JStr("TRACE-EVT-" + digits)))
    && (exists digits :: Writes(digits, n, 1) && Carries(e, "idempotencyKey", KeyWith(digits, r, sc)))
    && (match cause case None => "causationId" !in e case Some(id) => Carries(e, "causationId", id))
  }

  ghost function KeyWith(digits: string, r: LogEntry, sc: Scenario): Json {
    JStr(sc.scenarioId + ":" + digits + ":" + r.eventType + ":" + r.aggregateId)
  }

  ghost predicate EventOf(e: Object, r: LogEntry, sc: Scenario, n: nat, cause: Option<Json>) {
    TellsOf(e, r, sc) && NumberedAs(e, r, sc, n, cause) && Carries(e, "sequence", JInt(n))
  }

  /** Every record is appended as its draft. */
  lemma {:induction false} EventsAreDrafts(log: seq<LogEntry>, h: Header, p: EventLog.Platform)
    requires History(log, h, p).Some?
    ensures var events := History(log, h, p).value;
      |events| == |log| && forall i :: 0 <= i < |log| ==> EventLog.Comparable(events[i]) == DraftAt(log, i, h)
    decreases |log|
  {
    hide History, EventLog.Append, EventDraft, Mirrors, EventLog.ValidChain, EventLog.Comparable, EventLog.Stamped;
    HistoryMirrorsLog(log, h, p);
    MirrorsLength(History(log, h, p).value, log, h);
    if log != [] {
      var n := |log| - 1;
      HistorySnoc(log, h, p);
      EventsAreDrafts(log[..n], h, p);
      var before, d := History(log[..n], h, p).value, DraftAt(log, n, h);
      var a := EventLog.Append(p, before, d).value;
      AppendedOnce(p, before, d, log[n], n + 1, if n == 0 then "" else EventIdText(n), h);
      forall i | 0 <= i < n ensures EventLog.Comparable(a.events[i]) == DraftAt(log, i, h) {
        assert a.events[i] == before[i] && log[..n][i] == log[i];
      }
    }
  }

  /** An append that lengthens the history appends the draft. */
  lemma AppendedOnce(
    p: EventLog.Platform, before: seq<Object>, d: Object, e: LogEntry, number: nat, cause: string, h: Header)
    requires EventLog.Append(p, before, d).Success? && |EventLog.Append(p, before, d).value.events| == |before| + 1
    requires d == EventDraft(e, number, cause, h)
    ensures var a := EventLog.Append(p, before, d).value;
      a.events == before + [a.event] && EventLog.Comparable(a.event) == d
  {
    hide EventDraft, EventLog.Stamped, EventLog.Comparable, EventLog.FirstFault, EventLog.ValidEvent;
    DraftIsClean(e, number, cause, h);
    EventLogProperties.ComparableIsDraft(p, before, d);
  }

  lemma DraftCarries(e: Object, d: Object, key: string)
    requires EventLog.Comparable(e) == d && key !in EventLog.STAMPS
    ensures key in e <==> key in d
    ensures key in d ==> e[key] == d[key]
  {
    assert EventLog.Comparable(e).Keys == e.Keys - EventLog.STAMPS;
  }

  lemma DraftTells(r: LogEntry, number: nat, cause: string, sc: Scenario)
    ensures TellsOf(EventDraft(r, number, cause, HeaderOf(sc)), r, sc)
  {
    hide EventIdText, KeyText;
  }

  lemma DraftNumbers(r: LogEntry, number: nat, cause: string, sc: Scenario)
    requires number > 0
    ensures NumberedAs(EventDraft(r, number, cause, HeaderOf(sc)), r, sc, number,
                       if cause == "" then None else Some(JStr(cause)))
    ensures Carries(EventDraft(r, number, cause, HeaderOf(sc)), "eventId", JStr(EventIdText(number)))
  {
    hide Decimal, Padded, ValueOf, Writes;
    PaddedWrites(number);
    DecimalWrites(number);
    var d := EventDraft(r, number, cause, HeaderOf(sc));
    assert Carries(d, "eventId", JStr("TRACE-EVT-" + Padded(number)));
    assert Carries(d, "idempotencyKey", KeyWith(Decimal(number), r, sc));
  }

  lemma DraftReads(e: Object, r: LogEntry, number: nat, cause: string, sc: Scenario)
    requires number > 0 && EventLog.Comparable(e) == EventDraft(r, number, cause, HeaderOf(sc))
    requires Carries(e, "sequence", JInt(number))
    ensures EventOf(e, r, sc, number, if cause == "" then None else Some(JStr(cause)))
    ensures Carries(e, "eventId", JStr(EventIdText(number)))
  {
    hide EventIdText, Writes, EventLog.Comparable, EventDraft, KeyWith;
    var d := EventDraft(r, number, cause, HeaderOf(sc));
    DraftTells(r, number, cause, sc);
    DraftNumbers(r, number, cause, sc);
    forall key | key !in EventLog.STAMPS ensures (key in e <==> key in d) && (key in d ==> e[key] == d[key]) {
      DraftCarries(e, d, key);
    }
    assert EventLog.STAMPS == {"sequence", "previousEventHash", "eventHash"};
  }

  /** The events of a managed trace tell its story, one event for each part of it in order, each numbered, named,
      dated and caused by the event before it. */
  lemma EventsTellTheStory(s: Services, sc: Scenario, p: EventLog.Platform, t: Trace)
    requires Managed(s, sc, p, t)
    ensures |t.work| == |sc.work| && |t.events| == |Story(s, sc, t)|
    ensures forall i :: 0 <= i < |t.events| ==>
      EventOf(t.events[i], Story(s, sc, t)[i], sc, i + 1, if i == 0 then None else Some(EventId(t.events[i - 1])))
  {
    hide Execute, Pursue, LogOf, Story, TraceOf, EventDraft, EventOf, EventLog.Comparable, History,
      EventLog.ValidChain, EventIdText;
    var c := CourseOf(s, sc, p, t);
    LogIsStory(s, sc, p, t, c);
    EventsAreDrafts(LogOf(sc, c), HeaderOf(sc), p);
    HistoryMirrorsLog(LogOf(sc, c), HeaderOf(sc), p);
    forall i | 0 <= i < |t.events|
      ensures Carries(t.events[i], "eventId", JStr(EventIdText(i + 1)))
      ensures EventOf(t.events[i], Story(s, sc, t)[i], sc, i + 1,
                      if i == 0 then None else Some(JStr(EventIdText(i))))
    {
      SequenceIs(p, t.events, i);
      IdIsText(i);
      DraftReads(t.events[i], LogOf(sc, c)[i], i + 1, if i == 0 then "" else EventIdText(i), sc);
    }
  }

  ghost function EventId(e: Object): Json {
    if "eventId" in e then e["eventId"] else JNull
  }

  lemma SequenceIs(p: EventLog.Platform, events: seq<Object>, i: nat)
    requires EventLog.ValidChain(p, events) && i < |events|
    ensures Carries(events[i], "sequence", JInt(i + 1))
  {
    hide EventLog.ValidChain, EventLog.ValidEvent;
    EventLogProperties.AcceptedEvent(p, events, i);
  }

  lemma IdIsText(i: nat)
    ensures EventIdText(i) != ""
  {
    hide Padded;
    assert |EventIdText(i)| >= |"TRACE-EVT-"|;
  }
}
