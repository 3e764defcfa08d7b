/** Recovery read off the events, the leases and the observations alone: which plan is refused, and when each of
    the six actions is taken. */
module RecoveryActions {
  import opened Collections
  import opened Json
  import opened Text
  import opened EventLog
  import opened EventLogProperties
  import opened Recovery
  import opened RecoveryProperties

  // ---------------------------------------------------------------- what events, leases and observations say

  ghost predicate HasType(e: Object, eventType: string) {
    "eventType" in e && e["eventType"] == JStr(eventType)
  }

  ghost predicate Says(e: Object, key: string, v: Json) {
    "payload" in e && e["payload"].JObj? && key in e["payload"].fields && e["payload"].fields[key] == v
  }

  ghost predicate DispatchesRun(e: Object, run: string) {
    HasType(e, "run.dispatched") && Says(e, "runId", JStr(run))
  }

  ghost predicate SaidToComplete(events: seq<Object>, run: string) {
    exists e :: e in events && HasType(e, "run.completed") && Says(e, "runId", JStr(run))
  }

  /** An effect of the dispatched run has been observed to have succeeded. */
  ghost predicate KnownToSucceed(e: Object, effects: map<string, string>) {
    exists key :: key in effects && key != "" && Says(e, "effectKey", JStr(key)) && effects[key] == "succeeded"
  }

  ghost predicate NamesItsRun(e: Object) {
    exists run :: Says(e, "runId", JStr(run)) && !Blank(run)
  }

  lemma TypeIsText(e: Object, eventType: string)
    requires eventType != ""
    ensures HasType(e, eventType) <==> TextOf(e, "eventType") == eventType
  {
  }

  lemma DispatchMeans(e: Object)
    ensures IsDispatch(e) <==> HasType(e, "run.dispatched")
    ensures IsCompletion(e) <==> HasType(e, "run.completed")
  {
    hide HasType;
    TypeIsText(e, "run.dispatched");
    TypeIsText(e, "run.completed");
  }

  lemma RunMeans(e: Object, run: string)
    requires NamesRun(e)
    ensures Says(e, "runId", JStr(run)) <==> RunOf(e) == run
  {
    hide Blank;
  }

  lemma NamingMeans(e: Object)
    ensures NamesRun(e) <==> NamesItsRun(e)
  {
    hide Blank;
    if NamesRun(e) {
      assert Says(e, "runId", JStr(RunOf(e))) && !Blank(RunOf(e));
    }
  }

  lemma EffectMeans(e: Object, effects: map<string, string>)
    ensures EffectSucceeded(PayloadOf(e), effects) <==> KnownToSucceed(e, effects)
    ensures EffectPossible(PayloadOf(e)) <==> Says(e, "externalSideEffectPossible", JBool(true))
  {
    var key := TextOf(PayloadOf(e), "effectKey");
    if EffectSucceeded(PayloadOf(e), effects) {
      assert Says(e, "effectKey", JStr(key));
    }
  }

  lemma CompletedMeans(events: seq<Object>, run: string)
    requires RunsNamed(events)
    ensures run in CompletedRuns(events) <==> SaidToComplete(events, run)
  {
    hide IsDispatch, IsCompletion, HasType, NamesRun, RunOf, Says;
    forall e | e in events && IsCompletion(e) ensures HasType(e, "run.completed") {
      DispatchMeans(e);
      RunMeans(e, run);
    }
    forall e | e in events ensures IsCompletion(e) && RunOf(e) == run
      <==> HasType(e, "run.completed") && Says(e, "runId", JStr(run))
    {
      DispatchMeans(e);
      if IsCompletion(e) { RunMeans(e, run); }
    }
  }

  lemma DispatchedMeans(events: seq<Object>, e: Object, run: string)
    requires RunsNamed(events) && DispatchedOnce(events) && e in events && DispatchesRun(e, run)
    ensures run in DispatchedRuns(events) && DispatchPayload(events, run) == PayloadOf(e)
  {
    hide HasType, NamesRun, RunOf, Says, PayloadOf, IsDispatch, IsCompletion;
    DispatchMeans(e);
    RunMeans(e, run);
    var found := Filter(events, DispatchOf(run));
    assert e in found;
    assert found[0] in found;
    assert IsDispatch(found[0]) && RunOf(found[0]) == run;
    var i :| 0 <= i < |events| && events[i] == e;
    var j :| 0 <= j < |events| && events[j] == found[0];
  }

  // ---------------------------------------------------------------- the six actions

  lemma PlannedParts(p: Platform, events: seq<Object>, leases: seq<Lease>, s: Situation, plan: RecoveryPlan)
    requires Planned(p, events, leases, s, plan)
    ensures RunsNamed(events) && DispatchedOnce(events) && ValidLeases(leases)
  {
    hide FirstFault, RunsNamed, DispatchedOnce, ValidLeases, StepsFor, DispatchedRuns;
  }

  /** The steps about a run that was dispatched: the decision made for it. */
  lemma StepOfRun(
    p: Platform, events: seq<Object>, leases: seq<Lease>, s: Situation, plan: RecoveryPlan, e: Object, run: string,
    action: Action, leaseId: Option<string>)
    requires Planned(p, events, leases, s, plan) && e in events && DispatchesRun(e, run)
    ensures Step(action, run, leaseId) in plan.steps <==>
      StepFor(run, PayloadOf(e), LeaseOf(leases, run), SaidToComplete(events, run), s)
      == Some(Step(action, run, leaseId))
  {
    hide Planned, StepFor, LeaseOf, DispatchesRun, SaidToComplete, PayloadOf, DispatchedRuns, CompletedRuns,
      DispatchPayload, RunsNamed, DispatchedOnce, ValidLeases;
    PlanSteps(p, events, leases, s, plan);
    PlannedParts(p, events, leases, s, plan);
    DispatchedMeans(events, e, run);
    CompletedMeans(events, run);
  }

  /** For a dispatched run with a lease, exactly when each action is taken. */
  lemma EachActionIff(
    p: Platform, events: seq<Object>, leases: seq<Lease>, s: Situation, plan: RecoveryPlan, e: Object, l: Lease)
    requires Planned(p, events, leases, s, plan)
    requires e in events && DispatchesRun(e, l.holderRunId) && l in leases
    ensures var done, active := SaidToComplete(events, l.holderRunId), l.status == Active;
      var expired, succeeded := active && l.expiresAt < s.now, KnownToSucceed(e, s.effects);
      var possible := Says(e, "externalSideEffectPossible", JBool(true));
      && (Step(WaitForLease, l.holderRunId, Some(l.leaseId)) in plan.steps <==> !done && active && !expired)
      && (Step(ReconcileCompletedRun, l.holderRunId, Some(l.leaseId)) in plan.steps <==>
            if done then active else expired && succeeded)
      && (Step(ReconcileOrphanRun, l.holderRunId, Some(l.leaseId)) in plan.steps <==> !done && !active)
      && (Step(VerifyExternalEffect, l.holderRunId, Some(l.leaseId)) in plan.steps <==>
            !done && expired && !succeeded && possible)
      && (Step(EscalateAttemptBudget, l.holderRunId, Some(l.leaseId)) in plan.steps <==>
            !done && expired && !succeeded && !possible && s.maxAttempts <= l.attempt)
      && (Step(ReclaimAndRequeue, l.holderRunId, Some(l.leaseId)) in plan.steps <==>
            !done && expired && !succeeded && !possible && l.attempt < s.maxAttempts)
  {
    hide Planned, LeaseOf, DispatchesRun, SaidToComplete, PayloadOf, EffectPossible, EffectSucceeded, KnownToSucceed,
      Says, RunsNamed, DispatchedOnce, ValidLeases;
    forall action ensures Step(action, l.holderRunId, Some(l.leaseId)) in plan.steps <==>
      StepFor(l.holderRunId, PayloadOf(e), Some(l), SaidToComplete(events, l.holderRunId), s)
      == Some(Step(action, l.holderRunId, Some(l.leaseId)))
    {
      StepOfRun(p, events, leases, s, plan, e, l.holderRunId, action, Some(l.leaseId));
      PlannedParts(p, events, leases, s, plan);
      LeaseIsUnique(leases, l);
    }
    EffectMeans(e, s.effects);
  }

  /** A dispatched run without a lease is an orphan unless it completed; and every step of a plan is about a
      dispatched run, and names the lease that run holds, if any. */
  lemma StepsNameTheirLease(
    p: Platform, events: seq<Object>, leases: seq<Lease>, s: Situation, plan: RecoveryPlan, e: Object, run: string)
    requires Planned(p, events, leases, s, plan) && e in events && DispatchesRun(e, run)
    ensures (forall l :: l in leases ==> l.holderRunId != run) ==>
      (Step(ReconcileOrphanRun, run, None) in plan.steps <==> !SaidToComplete(events, run))
    ensures forall step :: step in plan.steps && step.runId == run ==>
      match step.leaseId
      case None => step.action == ReconcileOrphanRun && forall l :: l in leases ==> l.holderRunId != run
      case Some(id) => exists l :: l in leases && l.holderRunId == run && l.leaseId == id
  {
    hide Planned, LeaseOf, DispatchesRun, SaidToComplete, PayloadOf, EffectPossible, EffectSucceeded, RunsNamed,
      DispatchedOnce, ValidLeases;
    PlannedParts(p, events, leases, s, plan);
    LeaseLookup(leases, run);
    StepOfRun(p, events, leases, s, plan, e, run, ReconcileOrphanRun, None);
    forall step | step in plan.steps && step.runId == run ensures
      match step.leaseId
      case None => step.action == ReconcileOrphanRun && forall l :: l in leases ==> l.holderRunId != run
      case Some(id) => exists l :: l in leases && l.holderRunId == run && l.leaseId == id
    {
      StepOfRun(p, events, leases, s, plan, e, run, step.action, step.leaseId);
      assert step == Step(step.action, run, step.leaseId);
    }
  }

  lemma StepsAreDispatched(
    p: Platform, events: seq<Object>, leases: seq<Lease>, s: Situation, plan: RecoveryPlan, step: Step)
    requires Planned(p, events, leases, s, plan) && step in plan.steps
    ensures exists e :: e in events && DispatchesRun(e, step.runId)
  {
    hide Planned, LeaseOf, PayloadOf, DispatchPayload, RunsNamed, DispatchedOnce, ValidLeases, IsDispatch, NamesRun,
      RunOf, HasType, Says, StepFor, CompletedRuns;
    PlanSteps(p, events, leases, s, plan);
    PlannedParts(p, events, leases, s, plan);
    var e :| e in events && IsDispatch(e) && RunOf(e) == step.runId;
    DispatchIsNamed(events, e);
    DispatchMeans(e);
    RunMeans(e, step.runId);
    assert DispatchesRun(e, step.runId);
  }

  lemma DispatchIsNamed(events: seq<Object>, e: Object)
    requires RunsNamed(events) && e in events && IsDispatch(e)
    ensures NamesRun(e)
  {
    hide IsDispatch, NamesRun;
  }

  /** The run was dispatched by an event that says no effect outside is possible, and none is known. */
  ghost predicate FreeToRepeat(events: seq<Object>, run: string, effects: map<string, string>) {
    exists e :: e in events && DispatchesRun(e, run)
      && !Says(e, "externalSideEffectPossible", JBool(true)) && !KnownToSucceed(e, effects)
  }

  /** A run is requeued exactly when it was dispatched and not completed, its lease is active and has expired, nothing
      outside may have happened or did happen, and attempts remain. */
  lemma RequeuedIff(p: Platform, events: seq<Object>, leases: seq<Lease>, s: Situation, plan: RecoveryPlan, l: Lease)
    requires Planned(p, events, leases, s, plan) && l in leases
    ensures Step(ReclaimAndRequeue, l.holderRunId, Some(l.leaseId)) in plan.steps
      <==> && FreeToRepeat(events, l.holderRunId, s.effects) && !SaidToComplete(events, l.holderRunId)
           && l.status == Active && l.expiresAt < s.now && l.attempt < s.maxAttempts
  {
    hide Planned, DispatchesRun, SaidToComplete, KnownToSucceed, Says;
    var step := Step(ReclaimAndRequeue, l.holderRunId, Some(l.leaseId));
    if step in plan.steps {
      StepsAreDispatched(p, events, leases, s, plan, step);
    }
    forall e | e in events && DispatchesRun(e, l.holderRunId) ensures step in plan.steps <==>
      && !SaidToComplete(events, l.holderRunId) && l.status == Active && l.expiresAt < s.now
      && !KnownToSucceed(e, s.effects) && !Says(e, "externalSideEffectPossible", JBool(true))
      && l.attempt < s.maxAttempts
    {
      EachActionIff(p, events, leases, s, plan, e, l);
    }
  }

  // ---------------------------------------------------------------- which plans are refused

  ghost predicate RunsAreSound(events: seq<Object>) {
    && (forall e :: e in events && (HasType(e, "run.dispatched") || HasType(e, "run.completed")) ==> NamesItsRun(e))
    && (forall i, j, run :: 0 <= i < j < |events| && DispatchesRun(events[i], run) ==> !DispatchesRun(events[j], run))
  }

  /** Leases in force one per run, taken, kept and ended in that order, for a digest. */
  ghost predicate LeasesAreSound(leases: seq<Lease>) {
    && (forall l :: l in leases ==>
          && l.attempt > 0 && l.acquiredAt <= l.heartbeatAt && l.heartbeatAt <= l.expiresAt
          && HexDigest(l.dispatchDigest))
    && (forall i, j :: 0 <= i < j < |leases| ==> leases[i].holderRunId != leases[j].holderRunId)
  }

  lemma RunsSoundIff(events: seq<Object>)
    ensures RunsAreSound(events) <==> RunsNamed(events) && DispatchedOnce(events)
  {
    hide HasType, Says, IsDispatch, IsCompletion, NamesRun, NamesItsRun, RunOf;
    forall e | e in events ensures
      && (IsDispatch(e) <==> HasType(e, "run.dispatched")) && (IsCompletion(e) <==> HasType(e, "run.completed"))
      && (NamesRun(e) <==> NamesItsRun(e))
    {
      DispatchMeans(e);
      NamingMeans(e);
    }
    if RunsNamed(events) {
      forall i, run | 0 <= i < |events|
        ensures DispatchesRun(events[i], run) <==> IsDispatch(events[i]) && RunOf(events[i]) == run
      {
        assert events[i] in events;
        if IsDispatch(events[i]) { RunMeans(events[i], run); }
      }
      if RunsAreSound(events) {
        forall i, j | 0 <= i < j < |events| && IsDispatch(events[i]) && IsDispatch(events[j])
          ensures RunOf(events[i]) != RunOf(events[j])
        {
          assert DispatchesRun(events[i], RunOf(events[i]));
        }
      }
    }
  }

  lemma LeasesSoundIff(leases: seq<Lease>)
    ensures LeasesAreSound(leases) <==> ValidLeases(leases)
  {
    hide IsDigest, HexDigest;
    forall l | l in leases ensures IsDigest(l.dispatchDigest) <==> HexDigest(l.dispatchDigest) {
      DigestMeans(l.dispatchDigest);
    }
    var holders := Map(Holder(), leases);
    assert forall i :: 0 <= i < |leases| ==> holders[i] == leases[i].holderRunId;
  }

  /** A history is refused before the budget, the budget before the runs, the runs before the leases; a plan
      names its time and the length of the history. */
  lemma RefusedIff(p: Platform, events: seq<Object>, leases: seq<Lease>, s: Situation)
    ensures match Plan(p, events, leases, s)
      case Failure(BrokenHistory(fault)) => FirstFault(p, events, 0) == Some(fault)
      case Failure(InvalidBudget) => FirstFault(p, events, 0).None? && s.maxAttempts <= 0
      case Failure(InvalidRuns) => FirstFault(p, events, 0).None? && s.maxAttempts > 0 && !RunsAreSound(events)
      case Failure(InvalidLeases) =>
        FirstFault(p, events, 0).None? && s.maxAttempts > 0 && RunsAreSound(events) && !LeasesAreSound(leases)
      case Success(plan) =>
        && FirstFault(p, events, 0).None? && s.maxAttempts > 0 && RunsAreSound(events) && LeasesAreSound(leases)
        && plan.generatedAt == s.now && plan.verifiedThroughSequence == |events|
  {
    hide FirstFault, RunsNamed, DispatchedOnce, ValidLeases, StepsFor, DispatchedRuns, RunsAreSound, LeasesAreSound;
    RunsSoundIff(events);
    LeasesSoundIff(leases);
  }
}
