/** What a recovery plan says about each run, and what it can never say. */
module RecoveryProperties {
  import opened Orders
  import opened Collections
  import opened Json
  import opened EventLog
  import opened Recovery

  function StepRun(): Step -> string {
    (s: Step) => s.runId
  }

  /** Steps are the decisions for the listed runs, and nothing else. */
  lemma {:induction false} StepsAreDecisions(runs: seq<string>, events: seq<Object>, leases: seq<Lease>, s: Situation)
    ensures forall step :: step in StepsFor(runs, events, leases, s) <==>
      (step.runId in runs && DecisionFor(step.runId, events, leases, s) == Some(step))
  {
    hide DecisionFor;
    if runs == [] {
    } else {
      StepsAreDecisions(runs[1..], events, leases, s);
      DecisionNamesRun(runs[0], events, leases, s);
      assert runs == [runs[0]] + runs[1..];
    }
  }

  lemma {:induction false} StepsKeepOrder(runs: seq<string>, events: seq<Object>, leases: seq<Lease>, s: Situation)
    requires StrictlyIncreasing(runs)
    ensures StrictlyIncreasing(Map(StepRun(), StepsFor(runs, events, leases, s)))
  {
    hide DecisionFor, StrLeq, StrictlyIncreasing, Map;
    if runs == [] {
      NoIds();
    } else {
      var rest := StepsFor(runs[1..], events, leases, s);
      var first := DecisionFor(runs[0], events, leases, s);
      assert runs == [runs[0]] + runs[1..];
      IncreasingHead(runs[0], runs[1..]);
      StepsKeepOrder(runs[1..], events, leases, s);
      StepsAreDecisions(runs[1..], events, leases, s);
      DecisionNamesRun(runs[0], events, leases, s);
      IdsOfSteps(rest);
      IncreasingHead(runs[0], Map(StepRun(), rest));
      if first.Some? {
        MapAppend(StepRun(), [first.value], rest);
        OneId(first.value);
      } else {
        assert [] + rest == rest;
      }
    }
  }

  lemma NoIds()
    ensures StrictlyIncreasing(Map(StepRun(), []))
  {
  }

  lemma OneId(step: Step)
    ensures Map(StepRun(), [step]) == [step.runId]
  {
  }

  lemma IdsOfSteps(steps: seq<Step>)
    ensures forall id :: id in Map(StepRun(), steps) ==> exists step :: step in steps && step.runId == id
  {
    forall id | id in Map(StepRun(), steps) ensures exists step :: step in steps && step.runId == id {
      var k :| 0 <= k < |steps| && Map(StepRun(), steps)[k] == id;
      assert steps[k] in steps && steps[k].runId == id;
    }
  }

  lemma DecisionNamesRun(run: string, events: seq<Object>, leases: seq<Lease>, s: Situation)
    ensures DecisionFor(run, events, leases, s).Some? ==> DecisionFor(run, events, leases, s).value.runId == run
  {
    hide DispatchPayload, LeaseOf, CompletedRuns;
  }

  ghost predicate Planned(p: Platform, events: seq<Object>, leases: seq<Lease>, s: Situation, plan: RecoveryPlan) {
    Plan(p, events, leases, s) == Success(plan)
  }

  lemma PlanSteps(p: Platform, events: seq<Object>, leases: seq<Lease>, s: Situation, plan: RecoveryPlan)
    requires Planned(p, events, leases, s, plan)
    ensures StrictlyIncreasing(Map(StepRun(), plan.steps))
    ensures forall step :: step in plan.steps <==>
      (step.runId in DispatchedRuns(events) && DecisionFor(step.runId, events, leases, s) == Some(step))
  {
    hide StepFor, DispatchPayload, LeaseOf, CompletedRuns, DispatchedRuns, FirstFault, SortedSet, StepsFor,
      RunsNamed, DispatchedOnce, ValidLeases, DecisionFor;
    SortedSetFacts(DispatchedRuns(events));
    StepsKeepOrder(SortedSet(DispatchedRuns(events)), events, leases, s);
    StepsAreDecisions(SortedSet(DispatchedRuns(events)), events, leases, s);
  }

  lemma PlannedLeases(p: Platform, events: seq<Object>, leases: seq<Lease>, s: Situation, plan: RecoveryPlan)
    requires Planned(p, events, leases, s, plan)
    ensures ValidLeases(leases)
  {
    hide FirstFault, RunsNamed, DispatchedOnce, ValidLeases, StepsFor, SortedSet, DispatchedRuns;
  }

  ghost predicate ActiveLease(leases: seq<Lease>, run: string) {
    exists l :: l in leases && l.holderRunId == run && l.status == Active
  }

  lemma LeaseIsUnique(leases: seq<Lease>, l: Lease)
    requires ValidLeases(leases) && l in leases
    ensures LeaseOf(leases, l.holderRunId) == Some(l)
  {
    hide ValidLease;
    var found := Filter(leases, HeldBy(l.holderRunId));
    assert l in found;
    assert found[0] in found;
    DistinctImages(Holder(), leases);
    assert Holder()(found[0]) == Holder()(l);
  }

  lemma LeaseLookup(leases: seq<Lease>, run: string)
    requires ValidLeases(leases)
    ensures LeaseOf(leases, run).None? <==> forall l :: l in leases ==> l.holderRunId != run
    ensures LeaseOf(leases, run).Some? ==>
      LeaseOf(leases, run).value in leases && LeaseOf(leases, run).value.holderRunId == run
    ensures ActiveLease(leases, run) <==> LeaseOf(leases, run).Some? && LeaseOf(leases, run).value.status == Active
  {
    hide ValidLease;
    var found := Filter(leases, HeldBy(run));
    if found != [] {
      assert found[0] in found;
      LeaseIsUnique(leases, found[0]);
    }
    forall l | l in leases && l.holderRunId == run ensures LeaseOf(leases, run) == Some(l) {
      LeaseIsUnique(leases, l);
    }
  }

  ghost predicate HasStep(plan: RecoveryPlan, run: string) {
    exists step :: step in plan.steps && step.runId == run
  }

  /** The plan has exactly one step, in strict run-id order, for every dispatched run that is either
      unfinished or still holds an active lease, and no other step. */
  lemma PlanIsExact(p: Platform, events: seq<Object>, leases: seq<Lease>, s: Situation, plan: RecoveryPlan)
    requires Planned(p, events, leases, s, plan)
    ensures StrictlyIncreasing(Map(StepRun(), plan.steps))
    ensures forall run :: HasStep(plan, run) <==>
      (run in DispatchedRuns(events) && (run !in CompletedRuns(events) || ActiveLease(leases, run)))
  {
    PlanSteps(p, events, leases, s, plan);
    forall run ensures HasStep(plan, run) <==>
      (run in DispatchedRuns(events) && (run !in CompletedRuns(events) || ActiveLease(leases, run)))
    {
      DecisionExists(events, leases, s, run);
      DecisionNamesRun(run, events, leases, s);
      hide DecisionFor, DispatchedRuns, CompletedRuns, ActiveLease;
      if run in DispatchedRuns(events) && DecisionFor(run, events, leases, s).Some? {
        assert DecisionFor(run, events, leases, s).value in plan.steps;
      }
    }
  }

  lemma DecisionExists(events: seq<Object>, leases: seq<Lease>, s: Situation, run: string)
    requires ValidLeases(leases)
    ensures DecisionFor(run, events, leases, s).Some?
      <==> run !in CompletedRuns(events) || ActiveLease(leases, run)
  {
    hide DispatchPayload, CompletedRuns, ActiveLease, ValidLeases, LeaseOf, EffectSucceeded, EffectPossible;
    LeaseLookup(leases, run);
  }

  /** Nothing is requeued without a current lease, and no live lease is ever taken away. */
  lemma NothingIsTakenAway(
    p: Platform, events: seq<Object>, leases: seq<Lease>, s: Situation, plan: RecoveryPlan, step: Step)
    requires Planned(p, events, leases, s, plan) && step in plan.steps
    ensures step.action == ReclaimAndRequeue ==>
      exists l :: l in leases && l.holderRunId == step.runId && l.status == Active && l.expiresAt < s.now
    ensures forall l |
      l in leases && l.holderRunId == step.runId && l.status == Active && s.now <= l.expiresAt ::
      step.action == WaitForLease || step.action == ReconcileCompletedRun
  {
    hide DispatchPayload, CompletedRuns, DispatchedRuns, ValidLeases, LeaseOf, EffectSucceeded, EffectPossible, Planned,
      StrictlyIncreasing, Map;
    PlanSteps(p, events, leases, s, plan);
    PlannedLeases(p, events, leases, s, plan);
    LeaseLookup(leases, step.runId);
    forall l | l in leases && l.holderRunId == step.runId ensures LeaseOf(leases, step.runId) == Some(l) {
      LeaseIsUnique(leases, l);
    }
    assert DecisionFor(step.runId, events, leases, s) == Some(step);
  }

  /** The order in which leases are listed does not matter. */
  lemma PlanIgnoresLeaseOrder(p: Platform, events: seq<Object>, leases: seq<Lease>, leases': seq<Lease>, s: Situation)
    requires Permutation(leases, leases')
    ensures Plan(p, events, leases, s) == Plan(p, events, leases', s)
  {
    hide FirstFault, RunsNamed, DispatchedOnce, SortedSet, ValidLease, StepsFor, LeaseOf;
    SamePermutation(leases, leases');
    var ids, ids' := Map(Holder(), leases), Map(Holder(), leases');
    PermutationMap(Holder(), leases, leases');
    if NoDuplicates(ids) { PermutationNoDuplicates(ids, ids'); }
    if NoDuplicates(ids') { PermutationNoDuplicates(ids', ids); }
    assert ValidLeases(leases) == ValidLeases(leases');
    if ValidLeases(leases) {
      forall run ensures LeaseOf(leases, run) == LeaseOf(leases', run) {
        LeaseLookup(leases, run);
        LeaseLookup(leases', run);
        if LeaseOf(leases, run).Some? {
          LeaseIsUnique(leases', LeaseOf(leases, run).value);
        }
      }
      StepsAgree(SortedSet(DispatchedRuns(events)), events, leases, leases', s);
    }
  }

  lemma {:induction false} StepsAgree(
    runs: seq<string>, events: seq<Object>, leases: seq<Lease>, leases': seq<Lease>, s: Situation)
    requires forall run :: LeaseOf(leases, run) == LeaseOf(leases', run)
    ensures StepsFor(runs, events, leases, s) == StepsFor(runs, events, leases', s)
  {
    hide StepFor, DispatchPayload, LeaseOf, CompletedRuns;
    if runs == [] {
    } else {
      StepsAgree(runs[1..], events, leases, leases', s);
    }
  }

  /** There is nothing to recover exactly when every dispatched run completed and holds no active lease. */
  lemma NothingToRecoverIff(p: Platform, events: seq<Object>, leases: seq<Lease>, s: Situation, plan: RecoveryPlan)
    requires Planned(p, events, leases, s, plan)
    ensures plan.steps == [] <==>
      forall run :: run in DispatchedRuns(events) ==> run in CompletedRuns(events) && !ActiveLease(leases, run)
  {
    PlanIsExact(p, events, leases, s, plan);
    hide DispatchedRuns, CompletedRuns, ActiveLease, Plan;
    if plan.steps != [] {
      var step := plan.steps[0];
      assert step in plan.steps;
      assert HasStep(plan, step.runId);
    } else {
      assert forall run :: !HasStep(plan, run);
    }
  }
}
