/** Recovery of an interrupted orchestration: the trace breaks off after any number of events, and what the
    scenario says of its work decides what may be repeated. */
module InterruptedRuns {
  import opened Collections
  import opened Json
  import opened Orchestrator
  import opened OrchestratorProperties
  import opened RecoveryActions
  import EventLog
  import EventLogProperties
  import Recovery
  import RecoveryProperties

  lemma MirroredWords(
    events: seq<Object>, log: seq<LogEntry>, h: Header, i: nat, eventType: string, key: string, v: Json)
    requires Mirrors(events, log, h) && i < |log|
    ensures HasType(events[i], eventType) <==> log[i].eventType == eventType
    ensures Says(events[i], key, v) <==> key in log[i].payload && log[i].payload[key] == v
  {
    hide EventIdText, KeyText;
    assert Records(events[i], log[i], i + 1, h);
  }

  /** A dispatch in a trace was written for some item that ran. */
  lemma DispatchOrigin(sc: Scenario, c: Course, events: seq<Object>, at: nat) returns (k: nat)
    requires |c.preps| == |sc.work| && |c.runs| == |sc.work|
    requires Mirrors(events, LogOf(sc, c), HeaderOf(sc)) && at < |events| && HasType(events[at], "run.dispatched")
    ensures k < |sc.work| && c.runs[k].Ran? && LogOf(sc, c)[at] == DispatchedEntry(sc.work[k], c.runs[k].digest)
  {
    hide LogOf, RunAt, Mirrors, HasType;
    MirrorsLength(events, LogOf(sc, c), HeaderOf(sc));
    MirroredWords(events, LogOf(sc, c), HeaderOf(sc), at, "run.dispatched", "", JNull);
    var j;
    k, j := RunEventOrigin(sc, c, at);
    DispatchComesFirst(sc.work[k], c.runs[k], j);
    RanWrote(sc.work[k], c.runs[k]);
  }

  lemma RanWrote(item: WorkItem, run: Execution)
    requires RunLog(item, run) != []
    ensures run.Ran? && RunLog(item, run)[0] == DispatchedEntry(item, run.digest)
  {
  }

  /** What a dispatch says: its run, its package, and whether repeating it may have an effect outside. */
  lemma DispatchSays(sc: Scenario, c: Course, events: seq<Object>, at: nat, k: nat)
    requires |c.preps| == |sc.work| && |c.runs| == |sc.work| && k < |sc.work| && c.runs[k].Ran?
    requires Mirrors(events, LogOf(sc, c), HeaderOf(sc)) && at < |events| == |LogOf(sc, c)|
    requires LogOf(sc, c)[at] == DispatchedEntry(sc.work[k], c.runs[k].digest)
    ensures forall run :: DispatchesRun(events[at], run) <==> run == RunLabel(sc.work[k])
    ensures forall id :: Says(events[at], "workPackageId", JStr(id)) <==> id == sc.work[k].candidate.workPackageId
    ensures Says(events[at], "externalSideEffectPossible", JBool(true)) <==> sc.work[k].externalSideEffectPossible
    ensures forall effects :: !KnownToSucceed(events[at], effects)
  {
    hide LogOf, Mirrors, HasType, Says, RunLabel;
    var log, h := LogOf(sc, c), HeaderOf(sc);
    forall run ensures DispatchesRun(events[at], run) <==> run == RunLabel(sc.work[k]) {
      MirroredWords(events, log, h, at, "run.dispatched", "runId", JStr(run));
    }
    forall id ensures Says(events[at], "workPackageId", JStr(id)) <==> id == sc.work[k].candidate.workPackageId {
      MirroredWords(events, log, h, at, "", "workPackageId", JStr(id));
    }
    MirroredWords(events, log, h, at, "", "externalSideEffectPossible", JBool(true));
    forall key ensures !Says(events[at], "effectKey", JStr(key)) {
      MirroredWords(events, log, h, at, "", "effectKey", JStr(key));
    }
  }

  /** The item's run was dispatched under this id, and nothing says that it completed. */
  ghost predicate Underway(events: seq<Object>, item: WorkItem, run: string) {
    && item.givenRunId == Some(run) && !SaidToComplete(events, run)
    && exists e ::
         e in events && DispatchesRun(e, run) && Says(e, "workPackageId", JStr(item.candidate.workPackageId))
  }

  lemma RanUnderItsOwnId(s: Services, sc: Scenario, p: EventLog.Platform, c: Course, k: nat)
    requires Pursue(s, sc, p) == Some(c) && k < |sc.work| && c.runs[k].Ran?
    ensures sc.work[k].givenRunId == Some(RunLabel(sc.work[k]))
  {
    hide Pursue, Decisions;
    ItemFacts(s, sc, p, c, k);
  }

  lemma SamePackage(sc: Scenario, i: nat, j: nat)
    requires NoDuplicates(Map(Package(), sc.work)) && i < |sc.work| && j < |sc.work|
    requires sc.work[i].candidate.workPackageId == sc.work[j].candidate.workPackageId
    ensures i == j
  {
    var ids := Map(Package(), sc.work);
    assert ids[i] == ids[j];
  }

  /** A run is underway exactly when its dispatch is in the part of the trace that is left and its completion is
      not; the dispatch then says what the item does. */
  lemma UnderwayMeans(
    s: Services, sc: Scenario, p: EventLog.Platform, t: Trace, n: nat, e: Object, run: string, item: WorkItem)
    requires Managed(s, sc, p, t) && n <= |t.events|
    requires e in t.events[..n] && DispatchesRun(e, run) && Recovery.DispatchedOnce(t.events[..n])
    requires Recovery.RunsNamed(t.events[..n]) && item in sc.work
    ensures Underway(t.events[..n], item, run) ==>
      (Says(e, "externalSideEffectPossible", JBool(true)) <==> item.externalSideEffectPossible)
  {
    hide Execute, Pursue, LogOf, TraceOf, History, HasType, Says, RunLabel, SaidToComplete, Mirrors, RunAt,
      Recovery.RunsNamed;
    if Underway(t.events[..n], item, run) {
      var c, at, k := DispatchOf(s, sc, p, t, n, e);
      var e' :| e' in t.events[..n] && DispatchesRun(e', run)
        && Says(e', "workPackageId", JStr(item.candidate.workPackageId));
      SameDispatch(t.events[..n], e, e', run);
      var i :| 0 <= i < |sc.work| && sc.work[i] == item;
      CourseSteps(s, sc, p, c);
      SamePackage(sc, i, k);
    }
  }

  lemma SameDispatch(events: seq<Object>, e: Object, e': Object, run: string)
    requires Recovery.RunsNamed(events) && Recovery.DispatchedOnce(events)
    requires e in events && e' in events && DispatchesRun(e, run) && DispatchesRun(e', run)
    ensures e == e'
  {
    hide HasType, Says, DispatchesRun;
    RunsSoundIff(events);
    var i :| 0 <= i < |events| && events[i] == e;
    var j :| 0 <= j < |events| && events[j] == e';
  }

  /** Where a dispatch comes from and what it says. */
  lemma DispatchOf(s: Services, sc: Scenario, p: EventLog.Platform, t: Trace, n: nat, e: Object)
    returns (c: Course, at: nat, k: nat)
    requires Managed(s, sc, p, t) && n <= |t.events| && e in t.events[..n] && HasType(e, "run.dispatched")
    ensures Pursue(s, sc, p) == Some(c) && at < n && t.events[at] == e && k < |sc.work|
    ensures c.runs[k].Ran? && sc.work[k].givenRunId == Some(RunLabel(sc.work[k]))
    ensures forall run :: DispatchesRun(e, run) <==> run == RunLabel(sc.work[k])
    ensures forall id :: Says(e, "workPackageId", JStr(id)) <==> id == sc.work[k].candidate.workPackageId
    ensures Says(e, "externalSideEffectPossible", JBool(true)) <==> sc.work[k].externalSideEffectPossible
    ensures forall effects :: !KnownToSucceed(e, effects)
  {
    hide Execute, Pursue, LogOf, TraceOf, History, HasType, Says, RunLabel, Mirrors, DispatchesRun, KnownToSucceed;
    c := CourseOf(s, sc, p, t);
    HistoryMirrorsLog(LogOf(sc, c), HeaderOf(sc), p);
    MirrorsLength(t.events, LogOf(sc, c), HeaderOf(sc));
    at :| 0 <= at < n && t.events[..n][at] == e;
    k := DispatchOrigin(sc, c, t.events, at);
    DispatchSays(sc, c, t.events, at, k);
    RanUnderItsOwnId(s, sc, p, c, k);
  }

  /** The run of a lease is underway for an item with this flag. */
  ghost predicate LeftBy(sc: Scenario, events: seq<Object>, run: string, external: bool) {
    exists item :: item in sc.work && Underway(events, item, run) && item.externalSideEffectPossible == external
  }

  lemma DispatchedIsLeft(
    s: Services, sc: Scenario, p: EventLog.Platform, t: Trace, n: nat, e: Object, run: string, external: bool)
    requires Managed(s, sc, p, t) && n <= |t.events|
    requires e in t.events[..n] && DispatchesRun(e, run) && Recovery.DispatchedOnce(t.events[..n])
    requires Recovery.RunsNamed(t.events[..n])
    ensures LeftBy(sc, t.events[..n], run, external)
      <==> !SaidToComplete(t.events[..n], run)
           && (Says(e, "externalSideEffectPossible", JBool(true)) <==> external)
    ensures forall effects :: !KnownToSucceed(e, effects)
  {
    hide Execute, Says, SaidToComplete, Recovery.RunsNamed, Recovery.DispatchedOnce, Managed, HasType, KnownToSucceed,
      RunLabel, Pursue;
    var c, at, k := DispatchOf(s, sc, p, t, n, e);
    if !SaidToComplete(t.events[..n], run) {
      assert Underway(t.events[..n], sc.work[k], run);
    }
    forall item | item in sc.work && Underway(t.events[..n], item, run)
      ensures Says(e, "externalSideEffectPossible", JBool(true)) <==> item.externalSideEffectPossible
    {
      UnderwayMeans(s, sc, p, t, n, e, run, item);
    }
    hide Underway;
  }

  lemma NotLeftWithoutDispatch(sc: Scenario, events: seq<Object>, run: string, external: bool)
    requires forall e :: e in events ==> !DispatchesRun(e, run)
    ensures !LeftBy(sc, events, run, external)
  {
  }

  /** A managed run breaks off after any number of events; whatever leases are held and whatever effects were
      observed then, a run is requeued exactly when it is underway for an item without an effect outside, its lease
      has expired and attempts remain; is escalated when none remain; and is verified exactly when it is underway for
      an item with such an effect and its lease has expired. */
  lemma InterruptedRunIsRepeatedIff(
    s: Services, sc: Scenario, p: EventLog.Platform, t: Trace, n: nat, leases: seq<Recovery.Lease>,
    situation: Recovery.Situation, plan: Recovery.RecoveryPlan, l: Recovery.Lease)
    requires Managed(s, sc, p, t) && n <= |t.events| && l in leases
    requires Recovery.Plan(p, t.events[..n], leases, situation) == Success(plan)
    ensures var expired := l.status == Recovery.Active && l.expiresAt < situation.now;
      && (Recovery.Step(Recovery.ReclaimAndRequeue, l.holderRunId, Some(l.leaseId)) in plan.steps <==>
            expired && l.attempt < situation.maxAttempts && LeftBy(sc, t.events[..n], l.holderRunId, false))
      && (Recovery.Step(Recovery.EscalateAttemptBudget, l.holderRunId, Some(l.leaseId)) in plan.steps <==>
            expired && situation.maxAttempts <= l.attempt && LeftBy(sc, t.events[..n], l.holderRunId, false))
      && (Recovery.Step(Recovery.VerifyExternalEffect, l.holderRunId, Some(l.leaseId)) in plan.steps <==>
            expired && LeftBy(sc, t.events[..n], l.holderRunId, true))
  {
    hide Execute, Says, SaidToComplete, Managed, KnownToSucceed, HasType, DispatchesRun, LeftBy, Recovery.Plan,
      Recovery.RunsNamed, Recovery.DispatchedOnce, Recovery.ValidLeases;
    var events := t.events[..n];
    assert RecoveryProperties.Planned(p, events, leases, situation, plan);
    PlannedParts(p, events, leases, situation, plan);
    if e :| e in events && DispatchesRun(e, l.holderRunId) {
      EachActionIff(p, events, leases, situation, plan, e, l);
      DispatchedIsLeft(s, sc, p, t, n, e, l.holderRunId, false);
      DispatchedIsLeft(s, sc, p, t, n, e, l.holderRunId, true);
    } else {
      NotLeftWithoutDispatch(sc, events, l.holderRunId, false);
      NotLeftWithoutDispatch(sc, events, l.holderRunId, true);
      forall action
        ensures Recovery.Step(action, l.holderRunId, Some(l.leaseId)) !in plan.steps
      {
        var step := Recovery.Step(action, l.holderRunId, Some(l.leaseId));
        if step in plan.steps {
          StepsAreDispatched(p, events, leases, situation, plan, step);
        }
      }
    }
  }

  /** After any interruption recovery goes through for distinct run ids, leases in order and a budget. */
  lemma InterruptedRunIsRecoverable(
    s: Services, sc: Scenario, p: EventLog.Platform, t: Trace, n: nat, leases: seq<Recovery.Lease>,
    situation: Recovery.Situation)
    requires Managed(s, sc, p, t) && n <= |t.events| && NoDuplicates(Map(RunId(), sc.work))
    ensures Recovery.Plan(p, t.events[..n], leases, situation).Success?
      <==> situation.maxAttempts > 0 && LeasesAreSound(leases)
  {
    hide Execute, Pursue, LogOf, TraceOf, History, EventLog.ValidChain, EventLog.FirstFault, Recovery.Plan,
      LeasesAreSound, Mirrors, Recovery.RunsNamed, Recovery.DispatchedOnce, NoDuplicates, RunsAreSound;
    var c := CourseOf(s, sc, p, t);
    HistoryMirrorsLog(LogOf(sc, c), HeaderOf(sc), p);
    EventLogProperties.VerifierIsExact(p, t.events);
    EventLogProperties.ChainPrefix(p, t.events, n);
    EventLogProperties.VerifierIsExact(p, t.events[..n]);
    FinishedHistory(sc, p, c, t.events);
    DispatchedAreAmong(sc.work, c.runs);
    PrefixIsSound(t.events, n);
    RunsSoundIff(t.events[..n]);
    RefusedIff(p, t.events[..n], leases, situation);
  }

  lemma PrefixIsSound(events: seq<Object>, n: nat)
    requires Recovery.RunsNamed(events) && Recovery.DispatchedOnce(events) && n <= |events|
    ensures Recovery.RunsNamed(events[..n]) && Recovery.DispatchedOnce(events[..n])
  {
    hide Recovery.IsDispatch, Recovery.IsCompletion, Recovery.NamesRun, Recovery.RunOf;
    assert forall e :: e in events[..n] ==> e in events;
  }
}
