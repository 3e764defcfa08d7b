/** When a scenario leaves a trace, and what it schedules and integrates, read off the scenario and its services
    alone. */
module ScenarioOutcomes {
  import opened Collections
  import opened Text
  import opened Orchestrator
  import opened OrchestratorProperties
  import opened TraceRecording
  import opened TraceEvents
  import EventLog
  import EventLogProperties
  import EvidenceGates
  import Scheduler
  import SchedulerProperties

  // ---------------------------------------------------------------- what preparing takes

  /** The manifest and the adapter an authorized item is ready with, or nothing. */
  ghost function Equipment(item: WorkItem, s: Services): Option<(ContextManifest, Negotiated)> {
    match s.authorize(item)
    case None => None
    case Some(a) =>
      if a.decision == UserDecisionRequired || a.decision == Blocked then None
      else
        match s.compile(item)
        case Failure(_) => None
        case Success(m) =>
          match s.negotiate(item, m, a.decision)
          case Failure(_) => None
          case Success(n) => Some((m, n))
  }

  /** Authorizing the item does not raise, and an item that is ready has a run id. */
  ghost predicate Prepares(item: WorkItem, s: Services) {
    s.authorize(item) != None && (Equipment(item, s) != None ==> item.givenRunId != None)
  }

  lemma PreparesIff(s: Services, item: WorkItem)
    ensures Prepare(s, item).Some? <==> Prepares(item, s)
    ensures Prepare(s, item).Some? ==>
      var prep := Prepare(s, item).value;
      && (prep.Ready? <==> Equipment(item, s).Some?)
      && (prep.Ready? ==> Equipment(item, s) == Some((prep.manifest, prep.negotiated)))
  {
  }

  lemma {:induction false} AllPrepareIff(s: Services, items: seq<WorkItem>)
    ensures PrepareAll(s, items).Some? <==> forall item :: item in items ==> Prepares(item, s)
  {
    hide Prepare, Prepares;
    if items == [] {
    } else {
      var front, last := items[..|items| - 1], items[|items| - 1];
      AllPrepareIff(s, front);
      PreparesIff(s, last);
      assert items == front + [last];
    }
  }

  // ---------------------------------------------------------------- what scheduling takes

  /** The candidates that enter the schedule: ready items, with their adapters, in order. */
  ghost function Offers(items: seq<WorkItem>, s: Services): seq<Scheduler.Candidate> {
    if items == [] then []
    else
      var last := items[|items| - 1];
      Offers(items[..|items| - 1], s)
      + match Equipment(last, s)
        case None => []
        case Some((_, n)) => [last.candidate.(adapterId := n.adapterId)]
  }

  lemma {:induction false} OffersAre(s: Services, items: seq<WorkItem>)
    requires PrepareAll(s, items).Some?
    ensures ReadyCandidates(items, PrepareAll(s, items).value) == Offers(items, s)
  {
    hide Prepare, Equipment;
    if items == [] {
    } else {
      var n := |items| - 1;
      OffersAre(s, items[..n]);
      PreparesIff(s, items[n]);
      assert PrepareAll(s, items).value[..n] == PrepareAll(s, items[..n]).value;
    }
  }

  /** The plan of the scenario: nothing where nothing is ready. */
  ghost predicate PlansAs(sc: Scenario, s: Services, p: EventLog.Platform, plan: Option<Scheduler.SchedulePlan>) {
    if Offers(sc.work, s) == [] then plan == None
    else
      match p.time(sc.now)
      case None => false
      case Some(now) =>
        plan.Some? && Scheduler.Plan(
          Offers(sc.work, s), sc.reservations,
          Scheduler.Context(
            sc.policy, (set d | d in sc.completedDependencies), sc.currentRevisions, sc.stateRevision, now))
        == Success(plan.value)
  }

  ghost function PlanIn(planning: Planning): Option<Scheduler.SchedulePlan> {
    if planning.Planned? then Some(planning.plan) else None
  }

  lemma PlansIff(s: Services, sc: Scenario, p: EventLog.Platform, planning: Planning)
    requires PrepareAll(s, sc.work).Some?
    ensures PlanWork(sc, ReadyCandidates(sc.work, PrepareAll(s, sc.work).value), p) == Some(planning)
      <==> PlansAs(sc, s, p, PlanIn(planning))
  {
    hide Scheduler.Plan, Offers, ReadyCandidates, PrepareAll;
    OffersAre(s, sc.work);
  }

  // ---------------------------------------------------------------- what running takes

  /** The plan selects the package. */
  ghost predicate Chosen(plan: Option<Scheduler.SchedulePlan>, id: string) {
    plan.Some? && id in plan.value.selected
  }

  /** How the run of a ready item ends, or nothing when something raises. */
  ghost function Result(item: WorkItem, s: Services): Option<RunResult> {
    match Equipment(item, s)
    case None => None
    case Some((_, n)) =>
      match s.dispatch(item, n)
      case None => None
      case Some(digest) => s.invoke(item, digest)
  }

  /** Running the item raises nowhere: not in its dispatch, its adapter or its gate. */
  ghost predicate Runs(item: WorkItem, s: Services) {
    match Result(item, s)
    case None => false
    case Some(r) => r.status == RunCompleted && item.hasGate ==> s.gate(item) != None
  }

  /** The item completed and its gate promotes it. */
  ghost predicate Delivered(item: WorkItem, s: Services, plan: Option<Scheduler.SchedulePlan>) {
    && Equipment(item, s) != None && Chosen(plan, item.candidate.workPackageId) && item.hasGate
    && (match Result(item, s) case None => false case Some(r) => r.status == RunCompleted)
    && (match s.gate(item)
        case None => false
        case Some(report) =>
          report.outcome == EvidenceGates.GatePassed || report.outcome == EvidenceGates.GatePassedWithException)
  }

  lemma RunsIff(
    s: Services, item: WorkItem, prep: Preparation, planning: Planning)
    requires Prepare(s, item) == Some(prep)
    requires prep.Ready? ==> planning.Planned? && item.candidate.workPackageId in Decisions(planning)
    requires prep.Ready? ==>
      (Decisions(planning)[item.candidate.workPackageId].decision == Scheduler.Selected
       <==> Chosen(PlanIn(planning), item.candidate.workPackageId))
    ensures RunOne(s, item, prep, Decisions(planning)).Some?
      <==> (Equipment(item, s).Some? && Chosen(PlanIn(planning), item.candidate.workPackageId) ==> Runs(item, s))
    ensures RunOne(s, item, prep, Decisions(planning)).Some? ==>
      var run := RunOne(s, item, prep, Decisions(planning)).value;
      && (AcceptedRun(run) <==> Delivered(item, s, PlanIn(planning)))
      && (AcceptedRun(run) ==> Result(item, s) == Some(run.result))
  {
    hide Decisions, Prepare, Equipment, Chosen;
    PreparesIff(s, item);
  }

  lemma {:induction false} AllRunIff(
    s: Services, items: seq<WorkItem>, preps: seq<Preparation>, decisions: map<string, Scheduler.Entry>)
    requires |items| == |preps|
    ensures RunAll(s, items, preps, decisions).Some?
      <==> forall i :: 0 <= i < |items| ==> RunOne(s, items[i], preps[i], decisions).Some?
  {
    hide RunOne;
    if items == [] {
    } else {
      var n := |items| - 1;
      AllRunIff(s, items[..n], preps[..n], decisions);
      forall i | 0 <= i < n ensures items[..n][i] == items[i] && preps[..n][i] == preps[i] {
      }
    }
  }

  // ---------------------------------------------------------------- what integrating takes

  /** The completions of delivered items that carry one, in order. */
  ghost function Deliveries(
    items: seq<WorkItem>, s: Services, plan: Option<Scheduler.SchedulePlan>): seq<Completion>
  {
    if items == [] then []
    else
      var last := items[|items| - 1];
      Deliveries(items[..|items| - 1], s, plan)
      + if Delivered(last, s, plan) && last.integrates && Result(last, s).Some? then
          [Completion(last.candidate.workPackageId, Result(last, s).value.evidenceIds)]
        else []
  }

  lemma {:induction false} CompletionsAreDeliveries(
    s: Services, items: seq<WorkItem>, runs: seq<Execution>, plan: Option<Scheduler.SchedulePlan>)
    requires |items| == |runs|
    requires forall i :: 0 <= i < |items| ==> (AcceptedRun(runs[i]) <==> Delivered(items[i], s, plan))
    requires forall i :: 0 <= i < |items| && AcceptedRun(runs[i]) ==> Result(items[i], s) == Some(runs[i].result)
    ensures Completions(items, runs) == Deliveries(items, s, plan)
  {
    hide AcceptedRun, Delivered, Result;
    if items == [] {
    } else {
      var n := |items| - 1;
      CompletionsAreDeliveries(s, items[..n], runs[..n], plan);
    }
  }

  ghost predicate MembersReady(q: IntegrationRequest, done: seq<Completion>) {
    (forall id :: id in q.members <==> exists k :: 0 <= k < |done| && done[k].workPackageId == id)
  }

  /** A batch asked for whose members are ready has members, an id, and is integrated without raising. */
  ghost predicate Integrates(sc: Scenario, s: Services, done: seq<Completion>) {
    match sc.integration
    case None => true
    case Some(q) => MembersReady(q, done) ==> |done| > 0 && q.givenBatchId != None && s.integrate(q, done) != None
  }

  lemma MembersReadyIff(q: IntegrationRequest, done: seq<Completion>)
    ensures MembersReady(q, done) <==> q.members == set c | c in done :: c.workPackageId
  {
    var members := set c | c in done :: c.workPackageId;
    forall id ensures id in members <==> exists k :: 0 <= k < |done| && done[k].workPackageId == id {
      if id in members {
        var c :| c in done && c.workPackageId == id;
        var k :| 0 <= k < |done| && done[k] == c;
      }
      if k :| 0 <= k < |done| && done[k].workPackageId == id {
        assert done[k] in done;
      }
    }
  }

  lemma IntegratesIff(s: Services, sc: Scenario, done: seq<Completion>)
    ensures Integrate(s, sc.integration, done).Some? <==> Integrates(sc, s, done)
  {
    hide MembersReady;
    if sc.integration.Some? { MembersReadyIff(sc.integration.value, done); }
  }

  // ---------------------------------------------------------------- the whole run

  /** Nothing outside the log raises: there is work, each package once; every item prepares; the ready ones are
      scheduled; the selected ones run; and a batch that is ready is integrated. */
  ghost predicate GoesThrough(
    sc: Scenario, s: Services, p: EventLog.Platform, plan: Option<Scheduler.SchedulePlan>)
  {
    && |sc.work| > 0
    && (forall i, j :: 0 <= i < j < |sc.work| ==>
          sc.work[i].candidate.workPackageId != sc.work[j].candidate.workPackageId)
    && (forall item :: item in sc.work ==> Prepares(item, s))
    && PlansAs(sc, s, p, plan)
    && (forall item :: item in sc.work && Equipment(item, s) != None && Chosen(plan, item.candidate.workPackageId) ==>
          Runs(item, s))
    && Integrates(sc, s, Deliveries(sc.work, s, plan))
  }

  lemma DistinctWork(sc: Scenario)
    ensures NoDuplicates(Map(Package(), sc.work)) <==>
      forall i, j :: 0 <= i < j < |sc.work| ==>
        sc.work[i].candidate.workPackageId != sc.work[j].candidate.workPackageId
  {
    var ids := Map(Package(), sc.work);
    assert forall i :: 0 <= i < |sc.work| ==> ids[i] == sc.work[i].candidate.workPackageId;
  }

  lemma PlanningDecides(
    sc: Scenario, candidates: seq<Scheduler.Candidate>, p: EventLog.Platform, planning: Planning)
    requires PlanWork(sc, candidates, p) == Some(planning)
    ensures planning.Planned? <==> candidates != []
    ensures planning.Planned? ==> forall x :: x in candidates ==>
      && x.workPackageId in Decisions(planning)
      && (Decisions(planning)[x.workPackageId].decision == Scheduler.Selected
          <==> x.workPackageId in planning.plan.selected)
  {
    hide Scheduler.Plan, IndexBy;
    if planning.Planned? {
      SchedulerProperties.EntriesMatchSelection(
        candidates, sc.reservations, SchedulingContext(sc, p.time(sc.now).value));
    }
  }

  /** The runs of prepared and planned work, item by item. */
  lemma EachRunIff(s: Services, sc: Scenario, p: EventLog.Platform, preps: seq<Preparation>, planning: Planning, i: nat)
    requires PrepareAll(s, sc.work) == Some(preps) && i < |sc.work| == |preps|
    requires PlanWork(sc, ReadyCandidates(sc.work, preps), p) == Some(planning)
    ensures RunOne(s, sc.work[i], preps[i], Decisions(planning)).Some?
      <==> (Equipment(sc.work[i], s) != None && Chosen(PlanIn(planning), sc.work[i].candidate.workPackageId)
            ==> Runs(sc.work[i], s))
    ensures RunOne(s, sc.work[i], preps[i], Decisions(planning)).Some? ==>
      var run := RunOne(s, sc.work[i], preps[i], Decisions(planning)).value;
      && (AcceptedRun(run) <==> Delivered(sc.work[i], s, PlanIn(planning)))
      && (AcceptedRun(run) ==> Result(sc.work[i], s) == Some(run.result))
  {
    hide PlanWork, Decisions, ReadyCandidates, RunOne, Runs, Delivered, AcceptedRun, Result, Equipment, Prepare;
    EachPrepared(s, sc.work);
    PlanningDecides(sc, ReadyCandidates(sc.work, preps), p, planning);
    if preps[i].Ready? {
      ReadyAreCandidates(sc.work, preps);
      assert Prepared(sc.work[i], preps[i]) in ReadyCandidates(sc.work, preps);
    }
    RunsIff(s, sc.work[i], preps[i], planning);
  }

  lemma AllRunsGoThrough(
    s: Services, sc: Scenario, p: EventLog.Platform, preps: seq<Preparation>, planning: Planning)
    requires PrepareAll(s, sc.work) == Some(preps) && |preps| == |sc.work|
    requires PlanWork(sc, ReadyCandidates(sc.work, preps), p) == Some(planning)
    ensures RunAll(s, sc.work, preps, Decisions(planning)).Some?
      <==> forall item :: item in sc.work ==>
             (Equipment(item, s) != None && Chosen(PlanIn(planning), item.candidate.workPackageId) ==> Runs(item, s))
    ensures RunAll(s, sc.work, preps, Decisions(planning)).Some? ==>
      Completions(sc.work, RunAll(s, sc.work, preps, Decisions(planning)).value)
      == Deliveries(sc.work, s, PlanIn(planning))
  {
    hide PlanWork, Decisions, ReadyCandidates, RunOne, Runs, Delivered, AcceptedRun, Result, Equipment, PrepareAll,
      RunAll, Completions, Deliveries, Chosen;
    forall i | 0 <= i < |sc.work| ensures
      && sc.work[i] in sc.work
      && (RunOne(s, sc.work[i], preps[i], Decisions(planning)).Some?
          <==> (Equipment(sc.work[i], s) != None && Chosen(PlanIn(planning), sc.work[i].candidate.workPackageId)
                ==> Runs(sc.work[i], s)))
    {
      EachRunIff(s, sc, p, preps, planning, i);
    }
    AllRunIff(s, sc.work, preps, Decisions(planning));
    if RunAll(s, sc.work, preps, Decisions(planning)).Some? {
      var runs := RunAll(s, sc.work, preps, Decisions(planning)).value;
      EachRun(s, sc.work, preps, Decisions(planning));
      forall i | 0 <= i < |sc.work| ensures
        && (AcceptedRun(runs[i]) <==> Delivered(sc.work[i], s, PlanIn(planning)))
        && (AcceptedRun(runs[i]) ==> runs[i].Ran? && Result(sc.work[i], s) == Some(runs[i].result))
      {
        EachRunIff(s, sc, p, preps, planning, i);
        if AcceptedRun(runs[i]) { RanIsAccepted(runs[i]); }
      }
      CompletionsAreDeliveries(s, sc.work, runs, PlanIn(planning));
    }
  }

  ghost function PlanningOf(plan: Option<Scheduler.SchedulePlan>): Planning {
    match plan
    case None => NothingToPlan
    case Some(x) => Planned(x)
  }

  /** The course of a run exists exactly when nothing raises, and then has the plan it goes through with. */
  lemma PursuedIff(s: Services, sc: Scenario, p: EventLog.Platform)
    ensures Pursue(s, sc, p).Some? <==> exists plan :: GoesThrough(sc, s, p, plan)
    ensures Pursue(s, sc, p).Some? ==>
      var c := Pursue(s, sc, p).value;
      GoesThrough(sc, s, p, PlanIn(c.planning))
      && Completions(sc.work, c.runs) == Deliveries(sc.work, s, PlanIn(c.planning))
  {
    hide PlanWork, Decisions, ReadyCandidates, Runs, Result, Equipment, PrepareAll, PlansAs, Prepares, Integrates,
      RunAll, Completions, Deliveries, Chosen, NoDuplicates, Map, Integrate;
    DistinctWork(sc);
    AllPrepareIff(s, sc.work);
    if Pursue(s, sc, p).Some? {
      var c := Pursue(s, sc, p).value;
      PlansIff(s, sc, p, c.planning);
      AllRunsGoThrough(s, sc, p, c.preps, c.planning);
      IntegratesIff(s, sc, Completions(sc.work, c.runs));
      assert GoesThrough(sc, s, p, PlanIn(c.planning));
    }
    if plan :| GoesThrough(sc, s, p, plan) {
      var preps, planning := PrepareAll(s, sc.work).value, PlanningOf(plan);
      assert PlanIn(planning) == plan;
      PlansIff(s, sc, p, planning);
      AllRunsGoThrough(s, sc, p, preps, planning);
      IntegratesIff(s, sc, Completions(sc.work, RunAll(s, sc.work, preps, Decisions(planning)).value));
    }
  }

  /** Everything that is recorded has a name: the packages, the runs of items whose adapters are negotiated, and the
      batch. */
  ghost predicate NamesAll(sc: Scenario, s: Services) {
    && (forall item :: item in sc.work ==>
          && !Blank(item.candidate.workPackageId) && (item.givenRunId != None && Negotiates(item, s) ==>
               !Blank(item.givenRunId.value)))
    && (sc.integration != None && sc.integration.value.givenBatchId != None ==>
          !Blank(sc.integration.value.givenBatchId.value))
  }

  /** The item is authorized and its context compiled. */
  ghost predicate Negotiates(item: WorkItem, s: Services) {
    match s.authorize(item)
    case None => false
    case Some(a) => a.decision != UserDecisionRequired && a.decision != Blocked && s.compile(item).Success?
  }

  lemma NamesAllIff(s: Services, sc: Scenario, c: Course)
    requires PrepareAll(s, sc.work) == Some(c.preps) && |c.preps| == |sc.work|
    ensures NamedCourse(sc, c) <==> NamesAll(sc, s)
  {
    hide Blank, Prepare, PrepareAll, Negotiates, NamesItsRun;
    EachPrepared(s, sc.work);
    forall i | 0 <= i < |sc.work|
      ensures sc.work[i] in sc.work && (NamesItsRun(c.preps[i]) <==> Negotiates(sc.work[i], s))
    {
      NegotiatesIff(s, sc.work[i], c.preps[i]);
    }
    UnknownIsNamed();
  }

  lemma UnknownIsNamed()
    ensures !Blank("unknown")
  {
    assert "unknown"[0] == 'u' && !IsSpace('u');
  }

  lemma NegotiatesIff(s: Services, item: WorkItem, prep: Preparation)
    requires Prepare(s, item) == Some(prep)
    ensures NamesItsRun(prep) <==> Negotiates(item, s)
  {
  }

  ghost predicate NamedScenario(sc: Scenario) {
    forall text :: text in {sc.scenarioId, sc.projectId, sc.stateRevision, sc.now, sc.stage} ==> !Blank(text)
  }

  /** A scenario leaves a trace exactly when its texts are named and either it stays a conversation, or its route is
      named too, its clock can be read, nothing outside the log raises and all that is recorded has a name. */
  lemma TracedIff(s: Services, sc: Scenario, p: EventLog.Platform)
    requires EventLogProperties.Digests(p)
    ensures Execute(s, sc, p).Some? <==>
      && NamedScenario(sc)
      && (sc.activation == StayConversational ||
          (!Blank(sc.routeId) && p.time(sc.now) != None && NamesAll(sc, s)
           && exists plan :: GoesThrough(sc, s, p, plan)))
  {
    hide Pursue, History, LogOf, TraceOf, ValidTrace, Blank, EventLogProperties.Digests, NamedCourse, NamesAll,
      GoesThrough;
    PursuedIff(s, sc, p);
    if ToManage(sc) {
      TracedIffPursued(s, sc, p);
      if Pursue(s, sc, p).Some? {
        CourseSteps(s, sc, p, Pursue(s, sc, p).value);
        NamesAllIff(s, sc, Pursue(s, sc, p).value);
      }
    }
  }

  // ---------------------------------------------------------------- what the trace says of the whole

  /** A trace repeats what the scenario is about; an unmanaged one has nothing else. */
  lemma TraceIsAbout(s: Services, sc: Scenario, p: EventLog.Platform, t: Trace)
    requires Execute(s, sc, p) == Some(t)
    ensures t.scenarioId == sc.scenarioId && t.projectId == sc.projectId && t.activation == sc.activation
    ensures t.stage == sc.stage && t.stateRevision == sc.stateRevision
    ensures sc.activation != StayConversational ==> t.routeId == sc.routeId && t.modeIds == sc.modeIds
    ensures sc.activation == StayConversational ==>
      && t.status == NotManaged && t.routeId == "none" && t.modeIds == [] && t.work == [] && t.events == []
      && t.plan == None && t.batchId == None && t.integrationStatus == None
  {
    hide Pursue, History, LogOf, WorkTraces, StatusOf, StatusIn, ValidTrace;
  }

  /** The plan in a managed trace is the schedule of what is ready, and a requested batch is blocked while its members
      are not what was delivered, and else judged. */
  lemma ScheduledAndIntegrated(s: Services, sc: Scenario, p: EventLog.Platform, t: Trace)
    requires Managed(s, sc, p, t)
    ensures PlansAs(sc, s, p, t.plan)
    ensures var done := Deliveries(sc.work, s, t.plan);
      match sc.integration
      case None => t.integrationStatus == None && t.batchId == None
      case Some(q) =>
        if !MembersReady(q, done) then t.integrationStatus == Some(IntegrationBlocked) && t.batchId == None
        else
          match s.integrate(q, done)
          case None => false
          case Some(BatchPassed) => t.integrationStatus == Some(IntegrationPassed) && t.batchId == q.givenBatchId
          case Some(BatchFailed) => t.integrationStatus == Some(IntegrationFailed) && t.batchId == q.givenBatchId
          case Some(BatchInconclusive) =>
            t.integrationStatus == Some(IntegrationInconclusive) && t.batchId == q.givenBatchId
  {
    hide Execute, Pursue, LogOf, History, WorkTraces, StatusOf, PlansAs, MembersReady, Deliveries, Completions;
    var c := CourseOf(s, sc, p, t);
    PursuedIff(s, sc, p);
    PlansInTrace(sc, s, p, t, c);
    CourseSteps(s, sc, p, c);
    if sc.integration.Some? {
      MembersReadyIff(sc.integration.value, Completions(sc.work, c.runs));
    }
  }

  lemma PlansInTrace(sc: Scenario, s: Services, p: EventLog.Platform, t: Trace, c: Course)
    requires |c.preps| == |sc.work| && |c.runs| == |sc.work| && t == TraceOf(sc, c, t.events)
    requires GoesThrough(sc, s, p, PlanIn(c.planning))
    ensures t.plan == PlanIn(c.planning) && PlansAs(sc, s, p, t.plan)
  {
    hide PlansAs, StatusOf, WorkTraces;
  }
}
