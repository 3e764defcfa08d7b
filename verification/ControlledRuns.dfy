/** The orchestrator with the evidence gate in it: what stands behind a completed run. */
module ControlledRuns {
  import opened Collections
  import opened EvidenceGateProperties
  import opened Orchestrator
  import opened OrchestratorProperties
  import EventLog
  import EvidenceGates

  /** What each item submits to its acceptance gate. */
  type Acceptance = WorkItem -> EvidenceGates.Submission

  /** The acceptance gate is the evidence gate: it raises where that does, and reports its outcome. */
  ghost predicate JudgesBy(s: Services, acceptance: Acceptance) {
    forall item: WorkItem ::
      && (s.gate(item).Some? <==> Evaluated(acceptance(item)))
      && (s.gate(item).Some? ==> s.gate(item).value.outcome == EvidenceGates.Evaluate(acceptance(item)).value.outcome)
  }

  /** Every check the facts select is met, and where it is a hard control it passed, on admissible evidence for
      this subject revision. */
  ghost predicate Controlled(n: EvidenceGates.Submission) {
    forall rule :: rule in n.gate.checkRules && Asked(rule, n.facts) ==>
      && Met(rule, n)
      && (rule.hardControl ==>
            exists r :: r in n.results
              && r.checkId == rule.checkId && r.status == EvidenceGates.Passed && MetBy(r, rule, n))
  }

  lemma PromotableIsControlled(n: EvidenceGates.Submission)
    requires Evaluated(n) && EvidenceGates.Promotable(EvidenceGates.Evaluate(n).value.outcome)
    ensures Controlled(n)
  {
    hide EvidenceGates.Evaluate, Met, MetBy, Asked;
    OutcomeSaysPromotable(n);
    PromotableIffAllMet(n);
    forall rule | rule in n.gate.checkRules && Asked(rule, n.facts) && rule.hardControl
      ensures exists r ::
        r in n.results && r.checkId == rule.checkId && r.status == EvidenceGates.Passed && MetBy(r, rule, n)
    {
      HardControlsAreNeverExcused(n, rule);
    }
  }

  lemma OutcomeSaysPromotable(n: EvidenceGates.Submission)
    requires Evaluated(n)
    ensures EvidenceGates.Evaluate(n).value.promotable
       <==> EvidenceGates.Promotable(EvidenceGates.Evaluate(n).value.outcome)
  {
    hide EvidenceGates.JudgeAll, EvidenceGates.CheckSubmission, EvidenceGates.OutcomeOf;
  }

  /** A work entry that was accepted went through the gate of its item, which promoted it. */
  lemma AcceptedWasJudged(s: Services, sc: Scenario, p: EventLog.Platform, c: Course, i: nat)
    requires Pursue(s, sc, p) == Some(c) && i < |sc.work|
    requires FullyAccepted(WorkTraceOf(sc.work[i], c.preps[i], c.runs[i]))
    ensures sc.work[i].hasGate && s.gate(sc.work[i]).Some?
    ensures EvidenceGates.Promotable(s.gate(sc.work[i]).value.outcome)
  {
    hide Pursue, Prepare, Decisions;
    ItemFacts(s, sc, p, c, i);
  }

  /** Behind a completed trace stand, for every item of the work, an acceptance gate in which every selected check
      was met and every selected hard control passed on admissible evidence. */
  lemma CompletedMeansControlled(s: Services, sc: Scenario, p: EventLog.Platform, t: Trace, acceptance: Acceptance)
    requires Managed(s, sc, p, t) && t.status == Completed && JudgesBy(s, acceptance)
    ensures forall i :: 0 <= i < |sc.work| ==> sc.work[i].hasGate && Controlled(acceptance(sc.work[i]))
  {
    hide Execute, Pursue, LogOf, History, WorkTraceOf, FullyAccepted, StatusOf, Controlled, Evaluated;
    var c := CourseOf(s, sc, p, t);
    CompletedIffAllAccepted(s, sc, p, t);
    forall i | 0 <= i < |sc.work| ensures sc.work[i].hasGate && Controlled(acceptance(sc.work[i])) {
      assert t.work[i] == WorkTraceOf(sc.work[i], c.preps[i], c.runs[i]) && t.work[i] in t.work;
      AcceptedWasJudged(s, sc, p, c, i);
      PromotableIsControlled(acceptance(sc.work[i]));
    }
  }
}
