/** A managed trace read off the scenario and its services alone: what each work entry says, what is scheduled and
    integrated, and what the status means. */
module TraceReports {
  import opened Collections
  import opened Json
  import opened Text
  import opened EventLogReports
  import opened Orchestrator
  import opened OrchestratorProperties
  import EventLog
  import Scheduler

  // ---------------------------------------------------------------- the work entries

  /** The entry of an item that is not run, with what had been obtained for it. */
  ghost predicate Stopped(
    w: WorkTrace, manifestId: Option<string>, adapterId: Option<string>, decision: WorkDecision, reasons: seq<string>)
  {
    && w.manifestId == manifestId && w.adapterId == adapterId && w.decision == decision
    && w.runStatus == None && w.gateOutcome == None && w.reasons == reasons
  }

  /** How the run of a dispatched item ended, and how it was judged. */
  ghost predicate RanAs(w: WorkTrace, item: WorkItem, s: Services, digest: string, others: seq<string>) {
    match s.invoke(item, digest)
    case None => false
    case Some(result) =>
      && w.decision == SelectedToRun && w.runStatus == Some(result.status)
      && (match result.status
          case RunCompleted =>
            if item.hasGate then
              match s.gate(item)
              case None => false
              case Some(report) => w.gateOutcome == Some(report.outcome) && w.reasons == others + report.reasons
            else w.gateOutcome == None && w.reasons == others + ["completed run has no acceptance Gate"]
          case RunFailed => w.gateOutcome == None && w.reasons == others + ["run ended as failed"]
          case RunBlocked => w.gateOutcome == None && w.reasons == others + ["run ended as blocked"]
          case RunCancelled => w.gateOutcome == None && w.reasons == others + ["run ended as cancelled"])
  }

  /** The entry an item's schedule leads to. */
  ghost predicate ScheduledAs(
    w: WorkTrace, item: WorkItem, s: Services, m: ContextManifest, n: Negotiated, plan: Option<Scheduler.SchedulePlan>)
  {
    && plan.Some?
    && exists e ::
         e in plan.value.entries && e.workPackageId == item.candidate.workPackageId && DecidedAs(w, e, item, s, m, n)
  }

  ghost predicate DecidedAs(
    w: WorkTrace, e: Scheduler.Entry, item: WorkItem, s: Services, m: ContextManifest, n: Negotiated)
  {
    match e.decision
    case Deferred => Stopped(w, Some(m.manifestId), Some(n.adapterId), DeferredToWait, e.reasons)
    case Selected =>
      && w.manifestId == Some(m.manifestId) && w.adapterId == Some(n.adapterId)
      && s.dispatch(item, n).Some? && RanAs(w, item, s, s.dispatch(item, n).value, n.otherReasons)
  }

  /** What the services say of an item decides its entry. */
  ghost predicate EntrySays(w: WorkTrace, item: WorkItem, s: Services, plan: Option<Scheduler.SchedulePlan>) {
    match s.authorize(item)
    case None => false
    case Some(a) =>
      && w.workPackageId == item.candidate.workPackageId
      && w.authorization == a.decision && w.explanation == a.explanation
      && if a.decision == Blocked || a.decision == UserDecisionRequired then
           Stopped(w, None, None, NotEligible, [a.explanation])
         else
           match s.compile(item)
           case Failure(reason) => Stopped(w, None, None, NotEligible, ["context compilation failed: " + reason])
           case Success(m) =>
             match s.negotiate(item, m, a.decision)
             case Failure(reason) =>
               Stopped(w, Some(m.manifestId), None, NotEligible, ["capability negotiation failed: " + reason])
             case Success(n) => item.givenRunId != None && ScheduledAs(w, item, s, m, n, plan)
  }

  lemma DecisionsAre(planning: Planning, id: string)
    requires planning.Planned? && id in Decisions(planning)
    ensures Decisions(planning)[id] in planning.plan.entries && Decisions(planning)[id].workPackageId == id
  {
    hide IndexBy;
    IndexFacts(planning.plan.entries, EntryId());
    assert EntryId()(Decisions(planning)[id]) == id;
  }

  lemma RunReads(s: Services, item: WorkItem, prep: Preparation, digest: string, run: Execution)
    requires prep.Ready? && s.dispatch(item, prep.negotiated) == Some(digest)
    requires RunSelected(s, item, prep.negotiated) == Some(run)
    ensures RanAs(WorkTraceOf(item, prep, run), item, s, digest, prep.negotiated.otherReasons)
  {
    var words := "run ended as ";
    assert words + "failed" == "run ended as failed" && words + "blocked" == "run ended as blocked";
    assert words + "cancelled" == "run ended as cancelled";
  }

  lemma ReadyReads(
    s: Services, item: WorkItem, prep: Preparation, run: Execution, planning: Planning)
    requires prep.Ready? && planning.Planned? && RunOne(s, item, prep, Decisions(planning)) == Some(run)
    ensures ScheduledAs(WorkTraceOf(item, prep, run), item, s, prep.manifest, prep.negotiated, Some(planning.plan))
  {
    hide Decisions, RanAs, GateFor, RunReasons;
    var id := item.candidate.workPackageId;
    DecisionsAre(planning, id);
    var e := Decisions(planning)[id];
    assert e in planning.plan.entries;
    if e.decision == Scheduler.Selected {
      RunReads(s, item, prep, s.dispatch(item, prep.negotiated).value, run);
    }
  }

  /** Every work entry of a managed trace says what the services said of its item. */
  lemma EntriesRead(s: Services, sc: Scenario, p: EventLog.Platform, t: Trace)
    requires Managed(s, sc, p, t)
    ensures |t.work| == |sc.work|
    ensures forall i :: 0 <= i < |t.work| ==> EntrySays(t.work[i], sc.work[i], s, t.plan)
  {
    hide Execute, Pursue, LogOf, History, WorkTraceOf, EntrySays, StatusOf;
    var c := CourseOf(s, sc, p, t);
    forall i | 0 <= i < |t.work| ensures EntrySays(t.work[i], sc.work[i], s, t.plan) {
      EntryReads(s, sc, p, c, i);
    }
  }

  lemma EntryReads(s: Services, sc: Scenario, p: EventLog.Platform, c: Course, i: nat)
    requires Pursue(s, sc, p) == Some(c) && i < |sc.work|
    ensures EntrySays(WorkTraceOf(sc.work[i], c.preps[i], c.runs[i]), sc.work[i], s,
                      if c.planning.Planned? then Some(c.planning.plan) else None)
  {
    hide Pursue, Decisions, ScheduledAs, RunOne, RunReasons;
    ItemFacts(s, sc, p, c, i);
    if c.preps[i].Ready? {
      ReadyReads(s, sc.work[i], c.preps[i], c.runs[i], c.planning);
    }
  }

  // ---------------------------------------------------------------- the status

  /** A control stopped the item: policy, its context, or the capabilities on offer. */
  ghost predicate StoppedByControl(w: WorkTrace) {
    w.authorization == Blocked || (w.authorization != UserDecisionRequired && w.decision == NotEligible)
  }

  /** The item ran, and its result cannot be accepted. */
  ghost predicate Unacceptable(w: WorkTrace) {
    w.decision == SelectedToRun && !FullyAccepted(w)
  }

  lemma EntryStatus(item: WorkItem, prep: Preparation, run: Execution)
    requires prep.Ready? ==> MayProceed(prep.authorization.decision)
    requires prep.Unauthorized? ==> !MayProceed(prep.authorization.decision)
    requires prep.NoContext? || prep.NoAdapter? ==> MayProceed(prep.authorization.decision)
    requires prep.Ready? <==> !run.NotRun?
    ensures var w := WorkTraceOf(item, prep, run);
      && (StoppedByControl(w) <==> HardBlock(prep))
      && (w.authorization == UserDecisionRequired <==> NeedsDecision(prep))
      && (Unacceptable(w) <==> FailsRun(run)) && (w.decision == DeferredToWait <==> run.Waiting?)
  {
    hide RunReasons;
  }

  lemma ProceedsToPrepare(s: Services, item: WorkItem, prep: Preparation)
    requires Prepare(s, item) == Some(prep)
    ensures prep.Unauthorized? <==> !MayProceed(prep.authorization.decision)
  {
  }

  /** What the flags of a run say, read off its entries. */
  lemma FlagsRead(s: Services, sc: Scenario, p: EventLog.Platform, c: Course)
    requires Pursue(s, sc, p) == Some(c)
    ensures var work := WorkTraces(sc.work, c.preps, c.runs);
      && ((exists x :: x in c.preps && HardBlock(x)) <==> exists w :: w in work && StoppedByControl(w))
      && ((exists x :: x in c.preps && NeedsDecision(x)) <==>
            exists w :: w in work && w.authorization == UserDecisionRequired)
      && ((exists x :: x in c.runs && FailsRun(x)) <==> exists w :: w in work && Unacceptable(w))
      && ((exists x :: x in c.runs && x.Waiting?) <==> exists w :: w in work && w.decision == DeferredToWait)
  {
    hide Pursue, WorkTraceOf, StoppedByControl, HardBlock, NeedsDecision, FailsRun, Unacceptable, Prepare, RunOne,
      Decisions;
    var work := WorkTraces(sc.work, c.preps, c.runs);
    forall i | 0 <= i < |sc.work| ensures
      && (StoppedByControl(work[i]) <==> HardBlock(c.preps[i]))
      && (work[i].authorization == UserDecisionRequired <==> NeedsDecision(c.preps[i]))
      && (Unacceptable(work[i]) <==> FailsRun(c.runs[i]))
      && (work[i].decision == DeferredToWait <==> c.runs[i].Waiting?)
    {
      ItemFacts(s, sc, p, c, i);
      UnauthorizedIsStopped(s, sc.work[i], c.preps[i]);
      ProceedsToPrepare(s, sc.work[i], c.preps[i]);
      EntryStatus(sc.work[i], c.preps[i], c.runs[i]);
    }
    SomeIffSome(c.preps, work, (x: Preparation) => HardBlock(x), (w: WorkTrace) => StoppedByControl(w));
    SomeIffSome(c.preps, work, (x: Preparation) => NeedsDecision(x),
                (w: WorkTrace) => w.authorization == UserDecisionRequired);
    SomeIffSome(c.runs, work, (x: Execution) => FailsRun(x), (w: WorkTrace) => Unacceptable(w));
    SomeIffSome(c.runs, work, (x: Execution) => x.Waiting?, (w: WorkTrace) => w.decision == DeferredToWait);
  }

  lemma SomeIffSome<A(!new), B(!new)>(xs: seq<A>, ys: seq<B>, p: A -> bool, q: B -> bool)
    requires |xs| == |ys| && forall i :: 0 <= i < |xs| ==> (p(xs[i]) <==> q(ys[i]))
    ensures (exists x :: x in xs && p(x)) <==> exists y :: y in ys && q(y)
  {
    if x :| x in xs && p(x) {
      var i :| 0 <= i < |xs| && xs[i] == x;
      assert ys[i] in ys && q(ys[i]);
    }
    if y :| y in ys && q(y) {
      var i :| 0 <= i < |ys| && ys[i] == y;
      assert xs[i] in xs && p(xs[i]);
    }
  }

  /** Integration was asked for and did not pass. */
  ghost predicate NotIntegrated(t: Trace) {
    t.integrationStatus != None && t.integrationStatus != Some(IntegrationPassed)
  }

  /** A managed trace is blocked when a control stopped an item; else it waits for a decision when an item needs one;
      else it failed when an item that ran cannot be accepted or a requested integration did not pass; else it is
      waiting when an item is deferred; else it completed. */
  lemma StatusIs(s: Services, sc: Scenario, p: EventLog.Platform, t: Trace)
    requires Managed(s, sc, p, t)
    ensures var blocked := exists w :: w in t.work && StoppedByControl(w);
      var undecided := exists w :: w in t.work && w.authorization == UserDecisionRequired;
      var failed := (exists w :: w in t.work && Unacceptable(w)) || NotIntegrated(t);
      var waiting := exists w :: w in t.work && w.decision == DeferredToWait;
      && (t.status == BlockedStatus <==> blocked)
      && (t.status == DecisionRequired <==> !blocked && undecided)
      && (t.status == FailedStatus <==> !blocked && !undecided && failed)
      && (t.status == WaitingStatus <==> !blocked && !undecided && !failed && waiting)
      && (t.status == Completed <==> !blocked && !undecided && !failed && !waiting)
    ensures t.integrationStatus == None <==> sc.integration == None
  {
    hide Execute, Pursue, LogOf, History, WorkTraces, StoppedByControl, Unacceptable, HardBlock, NeedsDecision,
      FailsRun;
    var c := CourseOf(s, sc, p, t);
    FlagsRead(s, sc, p, c);
    IntegrationMatches(s, sc, p, c);
  }

  // ---------------------------------------------------------------- the self-check

  /** What any trace has to be: texts are named and packages distinct; an unmanaged one has nothing; a managed one has
      an unbroken chain of its own project, a plan that selects exactly the packages it reports as selected, and a batch
      where it reports integration as passed. */
  ghost predicate SoundTrace(t: Trace, p: EventLog.Platform) {
    && (forall text :: text in {t.scenarioId, t.projectId, t.routeId, t.stage, t.stateRevision} ==> !Blank(text))
    && (forall i, j :: 0 <= i < j < |t.work| ==> t.work[i].workPackageId != t.work[j].workPackageId)
    && if t.status == NotManaged then |t.events| == 0 && t.plan == None && t.batchId == None
       else
         && |t.events| > 0 && SoundUpTo(p, t.events, |t.events|)
         && (forall i :: 0 <= i < |t.events| ==> Gives(t.events[i], "projectId", JStr(t.projectId)))
         && (match t.plan
             case None => true
             case Some(plan) => forall id :: id in plan.selected <==> ReportsSelected(t, id))
         && (t.integrationStatus == Some(IntegrationPassed) ==> t.batchId != None)
  }

  ghost predicate ReportsSelected(t: Trace, id: string) {
    exists i :: 0 <= i < |t.work| && t.work[i].decision == SelectedToRun && t.work[i].workPackageId == id
  }

  lemma SelectionMeans(t: Trace, plan: Scheduler.SchedulePlan)
    ensures (set w | w in plan.selected)
         == (set w | w in t.work && w.decision == SelectedToRun :: w.workPackageId)
      <==> forall id :: id in plan.selected <==> ReportsSelected(t, id)
  {
    var traced := set w | w in t.work && w.decision == SelectedToRun :: w.workPackageId;
    forall id ensures id in traced <==> ReportsSelected(t, id) {
      if ReportsSelected(t, id) {
        var i :| 0 <= i < |t.work| && t.work[i].decision == SelectedToRun && t.work[i].workPackageId == id;
        assert t.work[i] in t.work;
      }
    }
    var chosen := set w | w in plan.selected;
    assert forall id :: id in chosen <==> id in plan.selected;
  }

  lemma ProjectMeans(t: Trace)
    ensures (forall e :: e in t.events ==> Field(e, "projectId") == JStr(t.projectId))
      <==> forall i :: 0 <= i < |t.events| ==> Gives(t.events[i], "projectId", JStr(t.projectId))
  {
    forall e ensures Field(e, "projectId") == JStr(t.projectId) <==> Gives(e, "projectId", JStr(t.projectId)) {
    }
    hide Gives;
    forall i | 0 <= i < |t.events| ensures t.events[i] in t.events {
    }
  }

  lemma DistinctPackages(t: Trace)
    ensures NoDuplicates(Map(WorkId(), t.work)) <==>
      forall i, j :: 0 <= i < j < |t.work| ==> t.work[i].workPackageId != t.work[j].workPackageId
  {
    var ids := Map(WorkId(), t.work);
    assert forall i :: 0 <= i < |t.work| ==> ids[i] == t.work[i].workPackageId;
  }

  /** The validation accepts exactly these traces. */
  lemma ValidTraceIff(t: Trace, p: EventLog.Platform)
    ensures ValidTrace(t, p) <==> SoundTrace(t, p)
  {
    hide Blank, NoDuplicates, Map, EventLog.FirstFault, SoundUpTo, FaultSays, Continues, ReportsSelected, Gives, Field;
    DistinctPackages(t);
    ProjectMeans(t);
    FirstFaultIs(p, t.events);
    UnsoundIsNot(p, t.events);
    if t.plan.Some? { SelectionMeans(t, t.plan.value); }
  }

  lemma UnsoundIsNot(p: EventLog.Platform, events: seq<Object>)
    ensures (exists i :: 0 <= i < |events| && !Continues(p, events[..i], events[i])) ==> !SoundUpTo(p, events, |events|)
  {
    hide Continues;
  }
}
