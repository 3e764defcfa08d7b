/** What every finished trace guarantees about the order of its events, the meaning of its status, its
    own validation, and what recovery finds in it. */
module OrchestratorProperties {
  import opened Orders
  import opened Collections
  import opened Text
  import opened Json
  import opened Orchestrator
  import EventLog
  import EventLogProperties
  import Scheduler
  import SchedulerProperties
  import EvidenceGates
  import Recovery
  import RecoveryProperties

  // ---------------------------------------------------------------- the history is the log

  lemma EventIdsDiffer(m: nat, n: nat)
    requires EventIdText(m) == EventIdText(n)
    ensures m == n
  {
    var prefix := "TRACE-EVT-";
    assert Padded(m) == EventIdText(m)[|prefix|..];
    assert Padded(n) == EventIdText(n)[|prefix|..];
    PaddedIsInjective(m, n);
  }

  /** What a draft says of its entry. */
  lemma DraftFields(e: LogEntry, number: nat, causation: string, h: Header)
    ensures var d := EventDraft(e, number, causation, h);
      && Field(d, "eventId") == JStr(EventIdText(number))
      && Field(d, "eventType") == JStr(e.eventType)
      && Field(d, "aggregateId") == JStr(e.aggregateId)
      && Field(d, "projectId") == JStr(h.projectId)
      && Field(d, "payload") == JObj(e.payload)
      && Field(d, "idempotencyKey") == JStr(KeyText(e, number, h))
  {
    hide EventIdText, KeyText;
  }

  /** An event says what its entry says. */
  ghost predicate Records(event: Object, e: LogEntry, number: nat, h: Header) {
    && Field(event, "eventId") == JStr(EventIdText(number))
    && Field(event, "eventType") == JStr(e.eventType)
    && Field(event, "aggregateId") == JStr(e.aggregateId)
    && Field(event, "projectId") == JStr(h.projectId)
    && Field(event, "payload") == JObj(e.payload)
    && Field(event, "idempotencyKey") == JStr(KeyText(e, number, h))
  }

  lemma ComparableKeeps(event: Object, draft: Object, e: LogEntry, number: nat, causation: string, h: Header)
    requires draft == EventDraft(e, number, causation, h)
    requires EventLog.Comparable(event) == draft
    ensures Records(event, e, number, h)
  {
    hide EventDraft, EventIdText, KeyText;
    DraftFields(e, number, causation, h);
    assert forall k :: k in draft ==> k in event && event[k] == draft[k];
  }

  lemma DraftIsClean(e: LogEntry, number: nat, causation: string, h: Header)
    ensures EventLogProperties.Clean(EventDraft(e, number, causation, h))
  {
    hide EventIdText, KeyText;
    assert EventDraft(e, number, causation, h).Keys <=
      {"schemaVersion", "eventId", "projectId", "streamId", "eventType", "aggregateType", "aggregateId",
       "occurredAt", "recordedAt", "actor", "idempotencyKey", "correlationId", "payload", "causationId"};
    assert EventLog.STAMPS == {"sequence", "previousEventHash", "eventHash"};
  }

  /** Appending one more draft at the end of a run of appends. */
  lemma {:induction false} AppendAllSnoc(p: EventLog.Platform, events: seq<Object>, drafts: seq<Object>, d: Object)
    ensures EventLog.AppendAll(p, events, drafts + [d]) ==
      match EventLog.AppendAll(p, events, drafts)
      case Failure(error) => Failure(error)
      case Success(es) =>
        match EventLog.Append(p, es, d)
        case Failure(error) => Failure(error)
        case Success(a) => Success(a.events)
    decreases |drafts|
  {
    hide EventLog.Append;
    if drafts == [] {
      assert drafts + [d] == [d];
      assert [d][1..] == [];
    } else {
      assert (drafts + [d])[0] == drafts[0] && (drafts + [d])[1..] == drafts[1..] + [d];
      match EventLog.Append(p, events, drafts[0]) {
        case Failure(_) =>
        case Success(a) => AppendAllSnoc(p, a.events, drafts[1..], d);
      }
    }
  }

  lemma DraftsSnoc(log: seq<LogEntry>, e: LogEntry, h: Header)
    ensures Drafts(log + [e], h) == Drafts(log, h) + [DraftAt(log + [e], |log|, h)]
  {
    hide EventDraft;
  }

  ghost predicate Mirrors(events: seq<Object>, log: seq<LogEntry>, h: Header) {
    && |events| == |log|
    && forall i :: 0 <= i < |log| ==> Records(events[i], log[i], i + 1, h)
  }

  /** A history one record longer is the shorter one with one more append. */
  lemma HistoryStep(log: seq<LogEntry>, e: LogEntry, h: Header, p: EventLog.Platform)
    ensures History(log + [e], h, p) ==
      match History(log, h, p)
      case None => None
      case Some(before) =>
        match EventLog.Append(p, before, DraftAt(log + [e], |log|, h))
        case Failure(_) => None
        case Success(a) => Some(a.events)
  {
    hide EventDraft, EventLog.Append;
    DraftsSnoc(log, e, h);
    AppendAllSnoc(p, [], Drafts(log, h), DraftAt(log + [e], |log|, h));
  }

  lemma HistorySnoc(log: seq<LogEntry>, h: Header, p: EventLog.Platform)
    requires log != [] && History(log, h, p).Some?
    ensures var n := |log| - 1;
      var before := History(log[..n], h, p);
      && before.Some?
      && EventLog.Append(p, before.value, DraftAt(log, n, h)).Success?
      && History(log, h, p).value == EventLog.Append(p, before.value, DraftAt(log, n, h)).value.events
  {
    hide EventDraft, EventLog.Append, History;
    var n := |log| - 1;
    assert log == log[..n] + [log[n]];
    HistoryStep(log[..n], log[n], h, p);
  }

  lemma EmptyHistory(h: Header, p: EventLog.Platform)
    ensures History([], h, p) == Some([])
  {
    assert Drafts([], h) == [];
  }

  /** Every record of a run appends exactly one event, which says what was recorded. */
  lemma {:induction false} HistoryMirrorsLog(log: seq<LogEntry>, h: Header, p: EventLog.Platform)
    requires History(log, h, p).Some?
    ensures Mirrors(History(log, h, p).value, log, h)
    ensures EventLog.ValidChain(p, History(log, h, p).value)
    decreases |log|
  {
    hide History, EventLog.Append, EventDraft, Mirrors, EventLog.ValidChain;
    if log == [] {
      EmptyHistory(h, p);
      NothingMirrorsNothing(h, p);
    } else {
      var n := |log| - 1;
      HistorySnoc(log, h, p);
      HistoryMirrorsLog(log[..n], h, p);
      assert log == log[..n] + [log[n]];
      OneMoreRecord(History(log[..n], h, p).value, log[..n], log[n], h, p);
    }
  }

  lemma NothingMirrorsNothing(h: Header, p: EventLog.Platform)
    ensures Mirrors([], [], h) && EventLog.ValidChain(p, [])
  {
  }

  /** One record more: the event is new, goes at the end and says what was recorded. */
  lemma OneMoreRecord(before: seq<Object>, log: seq<LogEntry>, e: LogEntry, h: Header, p: EventLog.Platform)
    requires Mirrors(before, log, h)
    requires EventLog.Append(p, before, DraftAt(log + [e], |log|, h)).Success?
    ensures var a := EventLog.Append(p, before, DraftAt(log + [e], |log|, h)).value;
      && Mirrors(a.events, log + [e], h) && EventLog.ValidChain(p, a.events)
      && Field(a.event, "eventId") == JStr(EventIdText(|log| + 1))
  {
    hide EventLog.Append, EventDraft, EventIdText, EventLog.ValidChain, EventLog.Stamped, EventLog.Comparable;
    var cause := if log == [] then "" else EventIdText(|log|);
    var d := DraftAt(log + [e], |log|, h);
    assert d == EventDraft(e, |log| + 1, cause, h);
    var a := EventLog.Append(p, before, d).value;
    EventLogProperties.AppendStep(p, before, d);
    if a.isNew {
      DraftIsClean(e, |log| + 1, cause, h);
      EventLogProperties.ComparableIsDraft(p, before, d);
    }
    ComparableKeeps(a.event, d, e, |log| + 1, cause, h);
    hide EventLogProperties.Keys, EventLogProperties.Clean, EventLog.KeyOf, DraftAt;
    if a.isNew {
      NewRecordMirrors(before, log, a.event, e, h);
    } else {
      OldRecordDiffers(before, log, a.event, h, |log| + 1);
    }
  }

  lemma NewRecordMirrors(before: seq<Object>, log: seq<LogEntry>, event: Object, e: LogEntry, h: Header)
    requires Mirrors(before, log, h) && Records(event, e, |log| + 1, h)
    ensures Mirrors(before + [event], log + [e], h)
  {
    hide Records;
  }

  /** No earlier event carries the number of a later record. */
  lemma OldRecordDiffers(before: seq<Object>, log: seq<LogEntry>, event: Object, h: Header, number: nat)
    requires Mirrors(before, log, h) && event in before && number > |log|
    ensures Field(event, "eventId") != JStr(EventIdText(number))
  {
    hide EventIdText;
    var j :| 0 <= j < |before| && before[j] == event;
    assert Records(before[j], log[j], j + 1, h);
    if EventIdText(j + 1) == EventIdText(number) {
      EventIdsDiffer(j + 1, number);
    }
  }

  // ---------------------------------------------------------------- reading a trace

  ghost predicate Managed(s: Services, sc: Scenario, p: EventLog.Platform, t: Trace) {
    sc.activation != StayConversational && Execute(s, sc, p) == Some(t)
  }

  /** The course behind a managed trace. */
  lemma CourseOf(s: Services, sc: Scenario, p: EventLog.Platform, t: Trace) returns (c: Course)
    requires Managed(s, sc, p, t)
    ensures Pursue(s, sc, p) == Some(c)
    ensures History(LogOf(sc, c), HeaderOf(sc), p) == Some(t.events) && t == TraceOf(sc, c, t.events)
  {
    hide Pursue, LogOf, History, WorkTraces, StatusOf, ValidTrace;
    c := Pursue(s, sc, p).value;
  }

  /** A course is what its steps yield, one after the other. */
  lemma CourseSteps(s: Services, sc: Scenario, p: EventLog.Platform, c: Course)
    ensures Pursue(s, sc, p) == Some(c) <==>
      && sc.work != [] && NoDuplicates(Map(Package(), sc.work))
      && PrepareAll(s, sc.work) == Some(c.preps)
      && PlanWork(sc, ReadyCandidates(sc.work, c.preps), p) == Some(c.planning)
      && RunAll(s, sc.work, c.preps, Decisions(c.planning)) == Some(c.runs)
      && Integrate(s, sc.integration, Completions(sc.work, c.runs)) == Some(c.integration)
  {
    hide PrepareAll, PlanWork, RunAll, Integrate, ReadyCandidates, Completions, Decisions, NoDuplicates;
  }

  lemma {:induction false} EachPrepared(s: Services, items: seq<WorkItem>)
    requires PrepareAll(s, items).Some?
    ensures forall i :: 0 <= i < |items| ==> Prepare(s, items[i]) == Some(PrepareAll(s, items).value[i])
  {
    hide Prepare;
    if items == [] {
    } else {
      var front := items[..|items| - 1];
      EachPrepared(s, front);
      forall i | 0 <= i < |front| ensures Prepare(s, items[i]) == Some(PrepareAll(s, items).value[i]) {
        assert front[i] == items[i];
      }
    }
  }

  lemma {:induction false} EachRun(
    s: Services, items: seq<WorkItem>, preps: seq<Preparation>, decisions: map<string, Scheduler.Entry>)
    requires |items| == |preps| && RunAll(s, items, preps, decisions).Some?
    ensures forall i :: 0 <= i < |items| ==>
      RunOne(s, items[i], preps[i], decisions) == Some(RunAll(s, items, preps, decisions).value[i])
  {
    hide RunOne;
    if items == [] {
    } else {
      var n := |items| - 1;
      EachRun(s, items[..n], preps[..n], decisions);
      forall i | 0 <= i < n
        ensures RunOne(s, items[i], preps[i], decisions) == Some(RunAll(s, items, preps, decisions).value[i])
      {
        assert items[..n][i] == items[i] && preps[..n][i] == preps[i];
      }
    }
  }

  lemma {:induction false} ReadyAreCandidates(items: seq<WorkItem>, preps: seq<Preparation>)
    requires |items| == |preps|
    ensures forall i :: 0 <= i < |items| && preps[i].Ready? ==>
      Prepared(items[i], preps[i]) in ReadyCandidates(items, preps)
    ensures forall c :: c in ReadyCandidates(items, preps) ==>
      exists i :: 0 <= i < |items| && preps[i].Ready? && c == Prepared(items[i], preps[i])
  {
    hide Prepared;
    if items == [] {
    } else {
      var n := |items| - 1;
      ReadyAreCandidates(items[..n], preps[..n]);
      forall i | 0 <= i < |items| && preps[i].Ready?
        ensures Prepared(items[i], preps[i]) in ReadyCandidates(items, preps)
      {
        if i < n {
          assert items[..n][i] == items[i] && preps[..n][i] == preps[i];
        }
      }
      forall c | c in ReadyCandidates(items, preps) ensures
        exists i :: 0 <= i < |items| && preps[i].Ready? && c == Prepared(items[i], preps[i])
      {
        if c in ReadyCandidates(items[..n], preps[..n]) {
          var i :| 0 <= i < n && preps[..n][i].Ready? && c == Prepared(items[..n][i], preps[..n][i]);
          assert c == Prepared(items[i], preps[i]);
        } else {
          assert c == Prepared(items[n], preps[n]);
        }
      }
    }
  }

  /** How each item fared: its preparation, and whether it ran, waits or was never scheduled. */
  lemma ItemFacts(s: Services, sc: Scenario, p: EventLog.Platform, c: Course, i: nat)
    requires Pursue(s, sc, p) == Some(c) && i < |sc.work|
    ensures Prepare(s, sc.work[i]) == Some(c.preps[i])
    ensures RunOne(s, sc.work[i], c.preps[i], Decisions(c.planning)) == Some(c.runs[i])
    ensures c.preps[i].Ready? <==> !c.runs[i].NotRun?
    ensures c.preps[i].Ready? ==> c.planning.Planned?
    ensures c.runs[i].Ran? <==>
      c.preps[i].Ready? && c.planning.Planned? && sc.work[i].candidate.workPackageId in c.planning.plan.selected
  {
    hide Pursue, Prepare, PrepareAll, PlanWork, RunAll, Integrate, ReadyCandidates, Decisions, Completions,
      NoDuplicates, Map;
    CourseSteps(s, sc, p, c);
    EachPrepared(s, sc.work);
    EachRun(s, sc.work, c.preps, Decisions(c.planning));
    PlanningFacts(s, sc, p, c);
    if c.preps[i].Ready? {
      ReadyAreCandidates(sc.work, c.preps);
      assert Prepared(sc.work[i], c.preps[i]) in ReadyCandidates(sc.work, c.preps);
    }
    RanIffSelected(s, sc.work[i], c.preps[i], Decisions(c.planning));
  }

  lemma RanIffSelected(s: Services, item: WorkItem, prep: Preparation, decisions: map<string, Scheduler.Entry>)
    requires RunOne(s, item, prep, decisions).Some?
    ensures var run := RunOne(s, item, prep, decisions).value;
      && (prep.Ready? <==> !run.NotRun?)
      && (prep.Ready? ==> item.candidate.workPackageId in decisions)
      && (run.Ran? <==> prep.Ready? && decisions[item.candidate.workPackageId].decision == Scheduler.Selected)
  {
    hide GateFor;
  }

  /** What the schedule says about prepared work. */
  lemma PlanningFacts(s: Services, sc: Scenario, p: EventLog.Platform, c: Course)
    requires Pursue(s, sc, p) == Some(c)
    ensures c.planning.Planned? <==> ReadyCandidates(sc.work, c.preps) != []
    ensures c.planning.Planned? ==>
      && (forall x :: x in ReadyCandidates(sc.work, c.preps) ==> x.workPackageId in Decisions(c.planning))
      && (forall x :: x in ReadyCandidates(sc.work, c.preps) ==>
            (Decisions(c.planning)[x.workPackageId].decision == Scheduler.Selected
             <==> x.workPackageId in c.planning.plan.selected))
      && (forall id :: id in c.planning.plan.selected ==>
            exists x :: x in ReadyCandidates(sc.work, c.preps) && x.workPackageId == id)
  {
    hide PrepareAll, RunAll, Integrate, ReadyCandidates, Scheduler.Plan, IndexBy;
    if c.planning.Planned? {
      var ctx := SchedulingContext(sc, p.time(sc.now).value);
      SchedulerProperties.EntriesMatchSelection(ReadyCandidates(sc.work, c.preps), sc.reservations, ctx);
    }
  }

  // ---------------------------------------------------------------- order of events

  /** Positions in the log: where an item's preparation and its run were written. */
  function PrepareAt(sc: Scenario, c: Course, k: nat): nat
    requires |c.preps| == |sc.work| && k <= |sc.work|
  {
    1 + |Flatten(PrepareLogs(sc.work, c.preps)[..k])|
  }

  function PlanAt(sc: Scenario, c: Course): nat
    requires |c.preps| == |sc.work|
  {
    1 + |Flatten(PrepareLogs(sc.work, c.preps))|
  }

  function RunAt(sc: Scenario, c: Course, k: nat): nat
    requires |c.preps| == |sc.work| && |c.runs| == |sc.work| && k <= |sc.work|
  {
    PlanAt(sc, c) + |PlanLog(sc, c.planning)| + |Flatten(RunLogs(sc.work, c.runs)[..k])|
  }

  lemma PrepareWritten(sc: Scenario, c: Course, k: nat, j: nat)
    requires |c.preps| == |sc.work| && |c.runs| == |sc.work| && k < |sc.work|
    requires j < |PrepareLog(sc.work[k], c.preps[k])|
    ensures PrepareAt(sc, c, k) + j < PlanAt(sc, c) <= |LogOf(sc, c)|
    ensures LogOf(sc, c)[PrepareAt(sc, c, k) + j] == PrepareLog(sc.work[k], c.preps[k])[j]
  {
    hide PrepareLog, RunLog, IntegrationLog, PlanLog, LastEntry, Started, StatusOf, Completions, Flatten;
    var logs := PrepareLogs(sc.work, c.preps);
    FlattenPlace(logs, k, j);
  }

  lemma PlanWritten(sc: Scenario, c: Course)
    requires |c.preps| == |sc.work| && |c.runs| == |sc.work| && c.planning.Planned?
    ensures PlanAt(sc, c) < |LogOf(sc, c)|
    ensures LogOf(sc, c)[PlanAt(sc, c)] == PlannedEntry(sc.projectId, c.planning.plan)
    ensures forall k :: 0 <= k <= |sc.work| ==> PlanAt(sc, c) < RunAt(sc, c, k)
  {
    hide PrepareLogs, RunLogs, IntegrationLog, LastEntry, Started, StatusOf, Completions, Flatten, PlannedEntry;
  }

  lemma RunWritten(sc: Scenario, c: Course, k: nat, j: nat)
    requires |c.preps| == |sc.work| && |c.runs| == |sc.work| && k < |sc.work|
    requires j < |RunLog(sc.work[k], c.runs[k])|
    ensures RunAt(sc, c, k) + j < |LogOf(sc, c)|
    ensures LogOf(sc, c)[RunAt(sc, c, k) + j] == RunLog(sc.work[k], c.runs[k])[j]
  {
    hide PrepareLogs, RunLog, IntegrationLog, PlanLog, LastEntry, Started, StatusOf, Completions, Flatten;
    var logs := RunLogs(sc.work, c.runs);
    FlattenPlace(logs, k, j);
  }

  /** A run event was written by the run of some item, at that item's place. */
  lemma RunEventOrigin(sc: Scenario, c: Course, at: nat) returns (k: nat, j: nat)
    requires |c.preps| == |sc.work| && |c.runs| == |sc.work| && at < |LogOf(sc, c)|
    requires LogOf(sc, c)[at].eventType == "run.dispatched" || LogOf(sc, c)[at].eventType == "run.completed"
    ensures k < |sc.work| && j < |RunLog(sc.work[k], c.runs[k])| && at == RunAt(sc, c, k) + j
    ensures LogOf(sc, c)[at] == RunLog(sc.work[k], c.runs[k])[j]
  {
    hide PrepareLogs, RunLogs, Flatten, StatusOf, Completions, RunLog;
    var a := Flatten(PrepareLogs(sc.work, c.preps));
    var b := PlanLog(sc, c.planning);
    var r := Flatten(RunLogs(sc.work, c.runs));
    if 1 <= at < 1 + |a| {
      PrepareEventsAreNotRuns(sc, c, at - 1);
    }
    assert 1 + |a| + |b| <= at < 1 + |a| + |b| + |r|;
    k, j := FlattenOrigin(RunLogs(sc.work, c.runs), at - (1 + |a| + |b|));
    RunLogsAt(sc, c, k);
  }

  lemma RunLogsAt(sc: Scenario, c: Course, k: nat)
    requires |c.runs| == |sc.work| && k < |RunLogs(sc.work, c.runs)|
    ensures k < |sc.work| && RunLogs(sc.work, c.runs)[k] == RunLog(sc.work[k], c.runs[k])
  {
    hide RunLog;
  }

  lemma PrepareEventsAreNotRuns(sc: Scenario, c: Course, at: nat)
    requires |c.preps| == |sc.work| && at < |Flatten(PrepareLogs(sc.work, c.preps))|
    ensures var t := Flatten(PrepareLogs(sc.work, c.preps))[at].eventType;
      t != "run.dispatched" && t != "run.completed"
  {
    hide Flatten;
    var k, j := FlattenOrigin(PrepareLogs(sc.work, c.preps), at);
    PrepareTypes(sc.work[k], c.preps[k], j);
  }

  lemma PrepareTypes(item: WorkItem, prep: Preparation, j: nat)
    requires j < |PrepareLog(item, prep)|
    ensures var t := PrepareLog(item, prep)[j].eventType; t != "run.dispatched" && t != "run.completed"
  {
  }

  /** An event of the trace, read by type, subject and payload. */
  ghost predicate EventIs(e: Object, eventType: string, aggregateId: string) {
    Field(e, "eventType") == JStr(eventType) && Field(e, "aggregateId") == JStr(aggregateId)
  }

  function PayloadField(e: Object, key: string): Json {
    Field(Recovery.PayloadOf(e), key)
  }

  /** What has to come before a dispatch of `item` at position `at` of a trace. */
  ghost predicate Earned(events: seq<Object>, at: nat, item: WorkItem, a: nat, n: nat, q: nat) {
    && a < n < q < at < |events|
    && EventIs(events[a], "authorization.evaluated", item.candidate.workPackageId)
    && (exists d :: MayProceed(d) && PayloadField(events[a], "decision") == JStr(DecisionText(d)))
    && EventIs(events[n], "capability.negotiated", RunLabel(item))
    && Field(events[q], "eventType") == JStr("schedule.planned")
    && PayloadField(events[q], "selected").JArr?
    && JStr(item.candidate.workPackageId) in PayloadField(events[q], "selected").items
    && EventIs(events[at], "run.dispatched", RunLabel(item))
    && PayloadField(events[at], "workPackageId") == JStr(item.candidate.workPackageId)
    && PayloadField(events[at], "runId") == JStr(RunLabel(item))
  }

  lemma MirroredPayload(events: seq<Object>, log: seq<LogEntry>, h: Header, i: nat)
    requires Mirrors(events, log, h) && i < |log|
    ensures Recovery.PayloadOf(events[i]) == log[i].payload
    ensures Field(events[i], "eventType") == JStr(log[i].eventType)
    ensures Field(events[i], "aggregateId") == JStr(log[i].aggregateId)
    ensures TextOf(events[i], "eventType") == log[i].eventType
  {
    hide EventIdText;
    assert Records(events[i], log[i], i + 1, h);
  }

  lemma SelectedIsListed(plan: Scheduler.SchedulePlan, projectId: string, id: string)
    requires id in plan.selected
    ensures var f := Field(PlannedEntry(projectId, plan).payload, "selected");
      f.JArr? && JStr(id) in f.items
  {
    MapMembers((x: string) => JStr(x), plan.selected, id);
  }

  /** The log behind a dispatch: who was authorized, negotiated and selected before it, and where. */
  ghost predicate EarnedInLog(
    log: seq<LogEntry>, at: nat, item: WorkItem, prep: Preparation, digest: string,
    projectId: string, plan: Scheduler.SchedulePlan, a: nat, n: nat, q: nat)
  {
    && a < n < q < at < |log|
    && prep.Ready? && MayProceed(prep.authorization.decision)
    && log[a] == AuthorizedEntry(item, prep.authorization)
    && log[n] == NegotiatedEntry(item, prep.negotiated)
    && item.candidate.workPackageId in plan.selected && log[q] == PlannedEntry(projectId, plan)
    && log[at] == DispatchedEntry(item, digest)
  }

  lemma DispatchIsEarnedInLog(s: Services, sc: Scenario, p: EventLog.Platform, c: Course, at: nat)
    returns (k: nat, digest: string, a: nat, n: nat, q: nat)
    requires Pursue(s, sc, p) == Some(c)
    requires at < |LogOf(sc, c)| && LogOf(sc, c)[at].eventType == "run.dispatched"
    ensures k < |sc.work| && c.planning.Planned?
    ensures EarnedInLog(LogOf(sc, c), at, sc.work[k], c.preps[k], digest, sc.projectId, c.planning.plan, a, n, q)
  {
    hide Pursue, LogOf, PrepareAt, PlanAt, RunAt, DispatchedEntry, AuthorizedEntry, NegotiatedEntry, PlannedEntry;
    var j: nat;
    k, j := RunEventOrigin(sc, c, at);
    ItemFacts(s, sc, p, c, k);
    DispatchComesFirst(sc.work[k], c.runs[k], j);
    ReadyMayProceed(s, sc.work[k], c.preps[k]);
    hide Prepare, RunOne, RunLog, PrepareLog, MayProceed;
    PrepareWritten(sc, c, k, 0);
    PrepareWritten(sc, c, k, 1);
    PlanWritten(sc, c);
    digest, a, n, q := c.runs[k].digest, PrepareAt(sc, c, k), PrepareAt(sc, c, k) + 1, PlanAt(sc, c);
  }

  lemma EarnedTransfers(
    events: seq<Object>, log: seq<LogEntry>, h: Header, at: nat, item: WorkItem, prep: Preparation,
    digest: string, projectId: string, plan: Scheduler.SchedulePlan, a: nat, n: nat, q: nat)
    requires Mirrors(events, log, h)
    requires EarnedInLog(log, at, item, prep, digest, projectId, plan, a, n, q)
    ensures Earned(events, at, item, a, n, q)
  {
    hide Mirrors, EventIs, PayloadField, MayProceed, DecisionText, AuthorizedEntry, NegotiatedEntry, PlannedEntry,
      DispatchedEntry;
    MirrorsLength(events, log, h);
    AuthorizationTransfers(events, log, h, a, item, prep.authorization);
    NegotiationTransfers(events, log, h, n, item, prep.negotiated);
    PlanTransfers(events, log, h, q, projectId, plan, item.candidate.workPackageId);
    DispatchTransfers(events, log, h, at, item, digest);
  }

  lemma MirrorsLength(events: seq<Object>, log: seq<LogEntry>, h: Header)
    requires Mirrors(events, log, h)
    ensures |events| == |log|
  {
    hide Records;
  }

  lemma AuthorizationTransfers(
    events: seq<Object>, log: seq<LogEntry>, h: Header, a: nat, item: WorkItem, authorization: Authorization)
    requires Mirrors(events, log, h) && a < |log| == |events| && log[a] == AuthorizedEntry(item, authorization)
    ensures EventIs(events[a], "authorization.evaluated", item.candidate.workPackageId)
    ensures PayloadField(events[a], "decision") == JStr(DecisionText(authorization.decision))
  {
    hide Mirrors, Strings, Recovery.PayloadOf, DecisionText;
    MirroredPayload(events, log, h, a);
  }

  lemma NegotiationTransfers(events: seq<Object>, log: seq<LogEntry>, h: Header, n: nat, item: WorkItem, x: Negotiated)
    requires Mirrors(events, log, h) && n < |log| == |events| && log[n] == NegotiatedEntry(item, x)
    ensures EventIs(events[n], "capability.negotiated", RunLabel(item))
  {
    hide Mirrors, Recovery.PayloadOf;
    MirroredPayload(events, log, h, n);
  }

  lemma PlanTransfers(
    events: seq<Object>, log: seq<LogEntry>, h: Header, q: nat, projectId: string, plan: Scheduler.SchedulePlan,
    id: string)
    requires Mirrors(events, log, h) && q < |log| == |events| && log[q] == PlannedEntry(projectId, plan)
    requires id in plan.selected
    ensures Field(events[q], "eventType") == JStr("schedule.planned")
    ensures PayloadField(events[q], "selected").JArr? && JStr(id) in PayloadField(events[q], "selected").items
  {
    hide Mirrors, Strings, Recovery.PayloadOf;
    MirroredPayload(events, log, h, q);
    SelectedIsListed(plan, projectId, id);
  }

  lemma DispatchTransfers(events: seq<Object>, log: seq<LogEntry>, h: Header, at: nat, item: WorkItem, digest: string)
    requires Mirrors(events, log, h) && at < |log| == |events| && log[at] == DispatchedEntry(item, digest)
    ensures EventIs(events[at], "run.dispatched", RunLabel(item))
    ensures PayloadField(events[at], "workPackageId") == JStr(item.candidate.workPackageId)
    ensures PayloadField(events[at], "runId") == JStr(RunLabel(item))
  {
    hide Mirrors, Recovery.PayloadOf;
    MirroredPayload(events, log, h, at);
  }

  /** Every dispatch in a managed trace is earned: it is preceded by its package's authorization with a
      proceeding decision, then by the negotiation for its run, then by a plan that selects the package. */
  lemma EveryDispatchIsEarned(s: Services, sc: Scenario, p: EventLog.Platform, t: Trace, at: nat)
    requires Managed(s, sc, p, t) && at < |t.events| && Field(t.events[at], "eventType") == JStr("run.dispatched")
    ensures exists item, a, n, q :: item in sc.work && Earned(t.events, at, item, a, n, q)
  {
    hide Execute, Pursue, LogOf, TraceOf, History, Earned, EarnedInLog;
    var c := CourseOf(s, sc, p, t);
    var log, h := LogOf(sc, c), HeaderOf(sc);
    HistoryMirrorsLog(log, h, p);
    assert |t.events| == |log|;
    MirroredPayload(t.events, log, h, at);
    hide Mirrors, EventLog.ValidChain, Recovery.PayloadOf;
    var k, digest, a, n, q := DispatchIsEarnedInLog(s, sc, p, c, at);
    EarnedTransfers(t.events, log, h, at, sc.work[k], c.preps[k], digest, sc.projectId, c.planning.plan, a, n, q);
    assert sc.work[k] in sc.work;
  }

  lemma DispatchComesFirst(item: WorkItem, run: Execution, j: nat)
    requires j < |RunLog(item, run)| && RunLog(item, run)[j].eventType == "run.dispatched"
    ensures run.Ran? && j == 0 && RunLog(item, run)[j] == DispatchedEntry(item, run.digest)
  {
  }

  lemma ReadyMayProceed(s: Services, item: WorkItem, prep: Preparation)
    requires Prepare(s, item) == Some(prep) && prep.Ready?
    ensures MayProceed(prep.authorization.decision)
    ensures PrepareLog(item, prep)
         == [AuthorizedEntry(item, prep.authorization), NegotiatedEntry(item, prep.negotiated)]
    ensures Field(AuthorizedEntry(item, prep.authorization).payload, "decision")
         == JStr(DecisionText(prep.authorization.decision))
  {
  }

  // ---------------------------------------------------------------- what completed means

  ghost predicate FullyAccepted(w: WorkTrace) {
    && w.authorization != UserDecisionRequired && w.authorization != Blocked && w.decision == SelectedToRun
    && w.runStatus == Some(RunCompleted)
    && (w.gateOutcome == Some(EvidenceGates.GatePassed)
        || w.gateOutcome == Some(EvidenceGates.GatePassedWithException))
  }

  lemma UnauthorizedIsStopped(s: Services, item: WorkItem, prep: Preparation)
    requires Prepare(s, item) == Some(prep)
    ensures prep.Ready? <==> !HardBlock(prep) && !NeedsDecision(prep)
    ensures prep.Ready? ==> MayProceed(prep.authorization.decision)
  {
  }

  lemma WorkTraceMeans(item: WorkItem, prep: Preparation, run: Execution)
    requires prep.Ready? ==> MayProceed(prep.authorization.decision)
    requires prep.Ready? <==> !run.NotRun?
    ensures FullyAccepted(WorkTraceOf(item, prep, run)) <==> prep.Ready? && AcceptedRun(run)
    ensures WorkTraceOf(item, prep, run).decision == SelectedToRun <==> run.Ran?
    ensures WorkTraceOf(item, prep, run).workPackageId == item.candidate.workPackageId
  {
    hide RunReasons;
  }

  /** The status of a course is "completed" exactly when every work item was authorized, selected, ran to
      completion and passed a promotable gate, and any requested integration passed. */
  lemma CourseCompletedIff(s: Services, sc: Scenario, p: EventLog.Platform, c: Course)
    requires Pursue(s, sc, p) == Some(c)
    ensures StatusOf(c.preps, c.runs, c.integration) == Completed <==>
      && (forall i :: 0 <= i < |sc.work| ==> FullyAccepted(WorkTraceOf(sc.work[i], c.preps[i], c.runs[i])))
      && (sc.integration.Some? ==> StatusIn(c.integration) == Some(IntegrationPassed))
  {
    hide Pursue, WorkTraceOf, FullyAccepted, StatusOf;
    forall i | 0 <= i < |sc.work| ensures
      && (FullyAccepted(WorkTraceOf(sc.work[i], c.preps[i], c.runs[i])) <==>
            c.preps[i].Ready? && AcceptedRun(c.runs[i]))
      && (c.preps[i].Ready? <==> !HardBlock(c.preps[i]) && !NeedsDecision(c.preps[i]))
      && (c.preps[i].Ready? <==> !c.runs[i].NotRun?)
    {
      ItemFacts(s, sc, p, c, i);
      UnauthorizedIsStopped(s, sc.work[i], c.preps[i]);
      WorkTraceMeans(sc.work[i], c.preps[i], c.runs[i]);
    }
    IntegrationMatches(s, sc, p, c);
    StatusIsCompleted(c);
    hide AcceptedRun, HardBlock, NeedsDecision;
    if StatusOf(c.preps, c.runs, c.integration) == Completed {
      forall i | 0 <= i < |sc.work| ensures FullyAccepted(WorkTraceOf(sc.work[i], c.preps[i], c.runs[i])) {
        assert c.preps[i] in c.preps && c.runs[i] in c.runs;
      }
    } else if forall i :: 0 <= i < |sc.work| ==> FullyAccepted(WorkTraceOf(sc.work[i], c.preps[i], c.runs[i])) {
      forall x | x in c.preps ensures !HardBlock(x) && !NeedsDecision(x) {
        var i :| 0 <= i < |c.preps| && c.preps[i] == x;
      }
      forall x | x in c.runs ensures AcceptedRun(x) {
        var i :| 0 <= i < |c.runs| && c.runs[i] == x;
      }
    }
  }

  /** The same, of the trace that is left. */
  lemma CompletedIffAllAccepted(s: Services, sc: Scenario, p: EventLog.Platform, t: Trace)
    requires Managed(s, sc, p, t)
    ensures |t.work| == |sc.work|
    ensures t.status == Completed <==>
      && (forall w :: w in t.work ==> FullyAccepted(w))
      && (sc.integration.Some? ==> t.integrationStatus == Some(IntegrationPassed))
  {
    hide Execute, Pursue, LogOf, History, WorkTraceOf, FullyAccepted, StatusOf;
    var c := CourseOf(s, sc, p, t);
    CourseCompletedIff(s, sc, p, c);
    forall i | 0 <= i < |sc.work|
      ensures t.work[i] == WorkTraceOf(sc.work[i], c.preps[i], c.runs[i]) && t.work[i] in t.work
    {
    }
    forall w | w in t.work
      ensures exists i :: 0 <= i < |sc.work| && w == WorkTraceOf(sc.work[i], c.preps[i], c.runs[i])
    {
      var i :| 0 <= i < |t.work| && t.work[i] == w;
    }
  }

  lemma StatusIsCompleted(c: Course)
    ensures StatusOf(c.preps, c.runs, c.integration) == Completed <==>
      && (forall x :: x in c.preps ==> !HardBlock(x) && !NeedsDecision(x))
      && (forall x :: x in c.runs ==> AcceptedRun(x) || x.NotRun?)
      && (c.integration == NotRequested || c.integration == Judged(BatchPassed))
  {
    hide HardBlock, NeedsDecision;
  }

  lemma IntegrationMatches(s: Services, sc: Scenario, p: EventLog.Platform, c: Course)
    requires Pursue(s, sc, p) == Some(c)
    ensures c.integration == NotRequested <==> sc.integration.None?
  {
    hide PrepareAll, PlanWork, RunAll, Completions, ReadyCandidates;
  }

  // ---------------------------------------------------------------- the trace passes its own checks

  lemma WorkTraceIds(sc: Scenario, c: Course)
    requires |c.preps| == |sc.work| && |c.runs| == |sc.work|
    ensures Map(WorkId(), WorkTraces(sc.work, c.preps, c.runs)) == Map(Package(), sc.work)
  {
    hide WorkTraceOf;
    forall i | 0 <= i < |sc.work| ensures
      WorkTraceOf(sc.work[i], c.preps[i], c.runs[i]).workPackageId == sc.work[i].candidate.workPackageId
    {
      TraceNamesItem(sc.work[i], c.preps[i], c.runs[i]);
    }
  }

  lemma TraceNamesItem(item: WorkItem, prep: Preparation, run: Execution)
    ensures WorkTraceOf(item, prep, run).workPackageId == item.candidate.workPackageId
  {
    hide RunReasons;
  }

  /** The plan's selection is exactly the work the trace reports as selected. */
  lemma SelectionAgrees(s: Services, sc: Scenario, p: EventLog.Platform, c: Course)
    requires Pursue(s, sc, p) == Some(c) && c.planning.Planned?
    ensures var work := WorkTraces(sc.work, c.preps, c.runs);
      (set id | id in c.planning.plan.selected)
      == (set w | w in work && w.decision == SelectedToRun :: w.workPackageId)
  {
    hide Pursue, WorkTraceOf, ReadyCandidates, Decisions;
    var work := WorkTraces(sc.work, c.preps, c.runs);
    PlanningFacts(s, sc, p, c);
    ReadyAreCandidates(sc.work, c.preps);
    forall i | 0 <= i < |sc.work| ensures
      && work[i].workPackageId == sc.work[i].candidate.workPackageId
      && (work[i].decision == SelectedToRun <==>
            c.preps[i].Ready? && sc.work[i].candidate.workPackageId in c.planning.plan.selected)
    {
      ItemFacts(s, sc, p, c, i);
      UnauthorizedIsStopped(s, sc.work[i], c.preps[i]);
      WorkTraceMeans(sc.work[i], c.preps[i], c.runs[i]);
    }
    forall id | id in c.planning.plan.selected ensures
      exists w :: w in work && w.decision == SelectedToRun && w.workPackageId == id
    {
      var x :| x in ReadyCandidates(sc.work, c.preps) && x.workPackageId == id;
      var i :| 0 <= i < |sc.work| && c.preps[i].Ready? && x == Prepared(sc.work[i], c.preps[i]);
      assert work[i] in work;
    }
    forall w | w in work && w.decision == SelectedToRun ensures w.workPackageId in c.planning.plan.selected {
      var i :| 0 <= i < |work| && work[i] == w;
    }
  }

  /** The events of a run form an accepted chain of the scenario's own project. */
  lemma EventsPassCheck(s: Services, sc: Scenario, p: EventLog.Platform, c: Course, events: seq<Object>)
    requires |c.preps| == |sc.work| && |c.runs| == |sc.work|
    requires History(LogOf(sc, c), HeaderOf(sc), p) == Some(events)
    ensures events != [] && EventLog.FirstFault(p, events, 0).None?
    ensures forall e :: e in events ==> Field(e, "projectId") == JStr(sc.projectId)
  {
    hide LogOf, History, EventLog.FirstFault, EventLog.ValidChain, EventIdText;
    var log, h := LogOf(sc, c), HeaderOf(sc);
    HistoryMirrorsLog(log, h, p);
    EventLogProperties.VerifierIsExact(p, events);
    LogIsNotEmpty(sc, c);
    forall e | e in events ensures Field(e, "projectId") == JStr(sc.projectId) {
      var i :| 0 <= i < |events| && events[i] == e;
      assert Records(events[i], log[i], i + 1, h);
    }
  }

  lemma WorkIsDistinct(s: Services, sc: Scenario, p: EventLog.Platform, c: Course)
    requires Pursue(s, sc, p) == Some(c)
    ensures NoDuplicates(Map(WorkId(), WorkTraces(sc.work, c.preps, c.runs)))
  {
    hide PrepareAll, PlanWork, RunAll, Integrate, ReadyCandidates, Completions, WorkTraces;
    WorkTraceIds(sc, c);
  }

  /** The self-check at the end of a run never rejects the trace the run built. */
  lemma SelfCheckNeverFails(s: Services, sc: Scenario, p: EventLog.Platform, c: Course, events: seq<Object>)
    requires ToManage(sc) && Pursue(s, sc, p) == Some(c)
    requires History(LogOf(sc, c), HeaderOf(sc), p) == Some(events)
    ensures ValidTrace(TraceOf(sc, c, events), p)
    ensures Execute(s, sc, p) == Some(TraceOf(sc, c, events))
  {
    hide Pursue, LogOf, History, WorkTraces, StatusOf, EventLog.FirstFault, NoDuplicates, Map;
    EventsPassCheck(s, sc, p, c, events);
    WorkIsDistinct(s, sc, p, c);
    if c.planning.Planned? {
      SelectionAgrees(s, sc, p, c);
    }
    IntegrationMatches(s, sc, p, c);
    StatusIsManaged(c);
  }

  lemma LogIsNotEmpty(sc: Scenario, c: Course)
    requires |c.preps| == |sc.work| && |c.runs| == |sc.work|
    ensures LogOf(sc, c) != []
  {
    hide PrepareLogs, RunLogs, IntegrationLog, PlanLog, LastEntry, Started, StatusOf, Completions, Flatten;
  }

  lemma StatusIsManaged(c: Course)
    ensures StatusOf(c.preps, c.runs, c.integration) != NotManaged
  {
    hide HardBlock, NeedsDecision, FailsRun;
  }

  // ---------------------------------------------------------------- recovery after a finished run

  function RunId(): WorkItem -> string {
    (i: WorkItem) => RunLabel(i)
  }

  function IsRunEntry(): LogEntry -> bool {
    (e: LogEntry) => e.eventType == "run.dispatched"
  }

  function RunOfEntry(): LogEntry -> string {
    (e: LogEntry) => e.aggregateId
  }

  /** The ids of the runs a finished course dispatched, in order. */
  function DispatchedIds(items: seq<WorkItem>, runs: seq<Execution>): seq<string>
    requires |items| == |runs|
  {
    if items == [] then []
    else (if runs[0].Ran? then [RunLabel(items[0])] else []) + DispatchedIds(items[1..], runs[1..])
  }

  lemma RunLogDispatches(item: WorkItem, run: Execution)
    ensures Map(RunOfEntry(), Filter(RunLog(item, run), IsRunEntry())) == if run.Ran? then [RunLabel(item)] else []
  {
    if run.Ran? {
      var log := RunLog(item, run);
      FilterNone(log[1..], IsRunEntry());
      assert Filter(log, IsRunEntry()) == [DispatchedEntry(item, run.digest)];
    }
  }

  lemma {:induction false} RunLogsDispatch(items: seq<WorkItem>, runs: seq<Execution>)
    requires |items| == |runs|
    ensures Map(RunOfEntry(), Filter(Flatten(RunLogs(items, runs)), IsRunEntry())) == DispatchedIds(items, runs)
  {
    hide RunLog;
    if items == [] {
    } else {
      var logs := RunLogs(items, runs);
      assert logs[1..] == RunLogs(items[1..], runs[1..]);
      RunLogsDispatch(items[1..], runs[1..]);
      RunLogDispatches(items[0], runs[0]);
      FilterAppend(logs[0], Flatten(logs[1..]), IsRunEntry());
      MapAppend(RunOfEntry(), Filter(logs[0], IsRunEntry()), Filter(Flatten(logs[1..]), IsRunEntry()));
    }
  }

  lemma NoDispatchBeforeRuns(sc: Scenario, c: Course)
    requires |c.preps| == |sc.work|
    ensures Filter([Started(sc)] + Flatten(PrepareLogs(sc.work, c.preps)) + PlanLog(sc, c.planning), IsRunEntry()) == []
  {
    hide PrepareLogs, Flatten, Strings;
    var logs := Flatten(PrepareLogs(sc.work, c.preps));
    forall at | 0 <= at < |logs| ensures logs[at].eventType != "run.dispatched" {
      PrepareEventsAreNotRuns(sc, c, at);
    }
    FilterNone([Started(sc)] + logs + PlanLog(sc, c.planning), IsRunEntry());
  }

  lemma NoDispatchAfterRuns(sc: Scenario, c: Course)
    requires |c.preps| == |sc.work| && |c.runs| == |sc.work|
    ensures Filter(IntegrationLog(sc.integration, Completions(sc.work, c.runs), c.integration)
                   + [LastEntry(sc, StatusOf(c.preps, c.runs, c.integration))], IsRunEntry()) == []
  {
    hide Completions, StatusOf, Strings;
    FilterNone(IntegrationLog(sc.integration, Completions(sc.work, c.runs), c.integration)
                 + [LastEntry(sc, StatusOf(c.preps, c.runs, c.integration))], IsRunEntry());
  }

  /** The dispatch records of the whole log are those of its runs. */
  lemma LogDispatches(sc: Scenario, c: Course)
    requires |c.preps| == |sc.work| && |c.runs| == |sc.work|
    ensures Map(RunOfEntry(), Filter(LogOf(sc, c), IsRunEntry())) == DispatchedIds(sc.work, c.runs)
  {
    hide PrepareLogs, RunLogs, StatusOf, Completions, Flatten, Started, PlanLog, IntegrationLog, LastEntry, Filter, Map,
      DispatchedIds;
    var a := [Started(sc)] + Flatten(PrepareLogs(sc.work, c.preps)) + PlanLog(sc, c.planning);
    var r := Flatten(RunLogs(sc.work, c.runs));
    var z := IntegrationLog(sc.integration, Completions(sc.work, c.runs), c.integration)
             + [LastEntry(sc, StatusOf(c.preps, c.runs, c.integration))];
    NoDispatchBeforeRuns(sc, c);
    NoDispatchAfterRuns(sc, c);
    assert LogOf(sc, c) == a + r + z;
    FilterAppend(a + r, z, IsRunEntry());
    FilterAppend(a, r, IsRunEntry());
    RunLogsDispatch(sc.work, c.runs);
    assert Filter(LogOf(sc, c), IsRunEntry()) == Filter(r, IsRunEntry());
  }

  /** A run event names its run in its payload, and a dispatch is followed by its completion. */
  lemma RunEntryFacts(sc: Scenario, p: EventLog.Platform, events: seq<Object>, c: Course, at: nat)
    requires |c.preps| == |sc.work| && |c.runs| == |sc.work|
    requires Mirrors(events, LogOf(sc, c), HeaderOf(sc)) && EventLog.ValidChain(p, events) && at < |events|
    requires Recovery.IsDispatch(events[at]) || Recovery.IsCompletion(events[at])
    ensures at < |LogOf(sc, c)|
    ensures Recovery.NamesRun(events[at]) && Recovery.RunOf(events[at]) == LogOf(sc, c)[at].aggregateId
    ensures Recovery.IsDispatch(events[at]) ==> Recovery.RunOf(events[at]) in Recovery.CompletedRuns(events)
  {
    hide LogOf, PrepareAt, PlanAt, RunAt, EventLog.ValidChain, RunLog;
    var log, h := LogOf(sc, c), HeaderOf(sc);
    assert |events| == |log|;
    MirroredPayload(events, log, h, at);
    var k, j := RunEventOrigin(sc, c, at);
    RunLogNames(sc.work[k], c.runs[k], j);
    AggregateIsNamed(p, events, at);
    hide Recovery.PayloadOf, Blank;
    if Recovery.IsDispatch(events[at]) {
      RunWritten(sc, c, k, 1);
      var next := RunAt(sc, c, k) + 1;
      MirroredPayload(events, log, h, next);
      RunLogNames(sc.work[k], c.runs[k], 1);
      hide Mirrors;
      assert Recovery.IsCompletion(events[next]) && Recovery.RunOf(events[next]) == Recovery.RunOf(events[at]);
      assert events[next] in events;
    }
  }

  lemma AggregateIsNamed(p: EventLog.Platform, events: seq<Object>, at: nat)
    requires EventLog.ValidChain(p, events) && at < |events|
    ensures HasText(events[at], "aggregateId")
  {
    hide EventLog.ValidChain, EventLog.ValidActor, EventLog.OrderedTimes, EventLog.IsDigest, Blank;
    EventLogProperties.AcceptedEvent(p, events, at);
  }

  lemma RunLogNames(item: WorkItem, run: Execution, j: nat)
    requires j < |RunLog(item, run)|
    requires var t := RunLog(item, run)[j].eventType; t == "run.dispatched" || t == "run.completed" || j == 1
    ensures var e := RunLog(item, run)[j];
      e.aggregateId == RunLabel(item) && Field(e.payload, "runId") == JStr(RunLabel(item))
    ensures j == 1 ==> RunLog(item, run)[j].eventType == "run.completed"
    ensures RunLog(item, run)[j].eventType == "run.dispatched" ==> |RunLog(item, run)| >= 2
  {
    hide RunStatusText;
  }

  /** The history of a finished run, as the recovery planner reads it. */
  lemma FinishedHistory(sc: Scenario, p: EventLog.Platform, c: Course, events: seq<Object>)
    requires |c.preps| == |sc.work| && |c.runs| == |sc.work|
    requires Mirrors(events, LogOf(sc, c), HeaderOf(sc)) && EventLog.ValidChain(p, events)
    ensures Recovery.RunsNamed(events)
    ensures Recovery.DispatchedOnce(events) <==> NoDuplicates(DispatchedIds(sc.work, c.runs))
    ensures forall run :: run in Recovery.DispatchedRuns(events) ==> run in Recovery.CompletedRuns(events)
  {
    hide LogOf, EventLog.ValidChain, Recovery.CompletedRuns, Recovery.NamesRun, Recovery.RunOf;
    var log, h := LogOf(sc, c), HeaderOf(sc);
    assert |events| == |log|;
    forall at | 0 <= at < |events| && (Recovery.IsDispatch(events[at]) || Recovery.IsCompletion(events[at]))
      ensures Recovery.NamesRun(events[at]) && Recovery.RunOf(events[at]) == log[at].aggregateId
      ensures Recovery.IsDispatch(events[at]) ==> Recovery.RunOf(events[at]) in Recovery.CompletedRuns(events)
    {
      RunEntryFacts(sc, p, events, c, at);
    }
    forall at | 0 <= at < |events| ensures Recovery.IsDispatch(events[at]) <==> IsRunEntry()(log[at]) {
      MirroredPayload(events, log, h, at);
    }
    hide Mirrors, Recovery.IsDispatch, Recovery.IsCompletion, Recovery.DispatchedOnce;
    LogDispatches(sc, c);
    FilterDistinct(log, IsRunEntry(), RunOfEntry());
    DispatchedOnceIff(events, log);
    forall e | e in events && (Recovery.IsDispatch(e) || Recovery.IsCompletion(e)) ensures Recovery.NamesRun(e) {
      var at :| 0 <= at < |events| && events[at] == e;
    }
    forall run | run in Recovery.DispatchedRuns(events) ensures run in Recovery.CompletedRuns(events) {
      var e :| e in events && Recovery.IsDispatch(e) && Recovery.RunOf(e) == run;
      var at :| 0 <= at < |events| && events[at] == e;
    }
  }

  lemma NoLeasesAreValid()
    ensures Recovery.ValidLeases([])
    ensures forall run :: !RecoveryProperties.ActiveLease([], run)
  {
  }

  /** Recovering a finished trace without leases plans nothing; and it is refused exactly when two
      dispatched work items of the scenario share a run id. */
  lemma NothingToRecoverAfterARun(
    s: Services, sc: Scenario, p: EventLog.Platform, c: Course, events: seq<Object>, situation: Recovery.Situation)
    requires Pursue(s, sc, p) == Some(c) && History(LogOf(sc, c), HeaderOf(sc), p) == Some(events)
    requires situation.maxAttempts >= 1
    ensures Recovery.Plan(p, events, [], situation) ==
      if NoDuplicates(DispatchedIds(sc.work, c.runs)) then
        Success(Recovery.RecoveryPlan(situation.now, |events|, []))
      else Failure(Recovery.InvalidRuns)
  {
    hide Pursue, LogOf, History, EventLog.ValidChain, EventLog.FirstFault, NoDuplicates, Mirrors, Recovery.ValidLeases,
      Recovery.RunsNamed, Recovery.DispatchedOnce, Recovery.StepsFor, SortedSet, Recovery.DispatchedRuns,
      Recovery.CompletedRuns, RecoveryProperties.ActiveLease;
    HistoryMirrorsLog(LogOf(sc, c), HeaderOf(sc), p);
    EventLogProperties.VerifierIsExact(p, events);
    FinishedHistory(sc, p, c, events);
    NoLeasesAreValid();
    if NoDuplicates(DispatchedIds(sc.work, c.runs)) {
      var plan := Recovery.Plan(p, events, [], situation).value;
      RecoveryProperties.NothingToRecoverIff(p, events, [], situation, plan);
    }
  }

  lemma {:induction false} DispatchedAreAmong(items: seq<WorkItem>, runs: seq<Execution>)
    requires |items| == |runs|
    ensures forall id :: id in DispatchedIds(items, runs) ==> id in Map(RunId(), items)
    ensures NoDuplicates(Map(RunId(), items)) ==> NoDuplicates(DispatchedIds(items, runs))
  {
    if items == [] {
    } else {
      var ids, rest := Map(RunId(), items), DispatchedIds(items[1..], runs[1..]);
      DispatchedAreAmong(items[1..], runs[1..]);
      assert ids == [RunLabel(items[0])] + Map(RunId(), items[1..]);
      HeadDistinct(RunLabel(items[0]), Map(RunId(), items[1..]));
      HeadDistinct(RunLabel(items[0]), rest);
    }
  }

  /** There is nothing to recover, without leases, after any finished run whose items have distinct run ids. */
  lemma FinishedRunsNeedNoRecovery(
      s: Services, sc: Scenario, p: EventLog.Platform, t: Trace, situation: Recovery.Situation)
    requires Managed(s, sc, p, t) && situation.maxAttempts >= 1 && NoDuplicates(Map(RunId(), sc.work))
    ensures Recovery.Plan(p, t.events, [], situation)
         == Success(Recovery.RecoveryPlan(situation.now, |t.events|, []))
  {
    hide Execute, Pursue, LogOf, TraceOf, History, Recovery.Plan, NoDuplicates;
    var c := CourseOf(s, sc, p, t);
    DispatchedAreAmong(sc.work, c.runs);
    NothingToRecoverAfterARun(s, sc, p, c, t.events, situation);
  }

  lemma DispatchedOnceIff(events: seq<Object>, log: seq<LogEntry>)
    requires |events| == |log|
    requires forall i :: 0 <= i < |log| ==> (Recovery.IsDispatch(events[i]) <==> IsRunEntry()(log[i]))
    requires forall i :: 0 <= i < |log| && Recovery.IsDispatch(events[i]) ==>
      Recovery.RunOf(events[i]) == log[i].aggregateId
    ensures Recovery.DispatchedOnce(events) <==> DistinctWhere(log, IsRunEntry(), RunOfEntry())
  {
    hide Recovery.IsDispatch, Recovery.RunOf;
    if Recovery.DispatchedOnce(events) {
      forall i, j | 0 <= i < j < |log| && IsRunEntry()(log[i]) && IsRunEntry()(log[j])
        ensures RunOfEntry()(log[i]) != RunOfEntry()(log[j])
      {
        assert Recovery.RunOf(events[i]) != Recovery.RunOf(events[j]);
      }
    }
    if DistinctWhere(log, IsRunEntry(), RunOfEntry()) {
      forall i, j | 0 <= i < j < |events| && Recovery.IsDispatch(events[i]) && Recovery.IsDispatch(events[j])
        ensures Recovery.RunOf(events[i]) != Recovery.RunOf(events[j])
      {
        assert RunOfEntry()(log[i]) != RunOfEntry()(log[j]);
      }
    }
  }
}
