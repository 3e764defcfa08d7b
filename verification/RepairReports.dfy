/** Gates over checks and reviews, and the repair loop around them, read off the results, the review and the ports
    alone: what a gate says and why, and everything a run leaves in the store. */
module RepairReports {
  import opened Collections
  import opened ReviewGate
  import opened RepairLoop
  import opened RepairProperties

  // ---------------------------------------------------------------- the result of a command

  /** The command's ending decides the status; the evidence is about the subject at this revision and says it. */
  ghost predicate ResultSays(
    x: CheckResult, d: CheckDefinition, r: CommandResult, subjectId: string, revision: string,
    seal: (seq<string>, CommandResult) -> string, name: (string, string) -> string)
  {
    var ended := !r.timedOut && r.exitCode != None;
    && x.checkId == d.id
    && x.status == (if !ended then CheckError else if r.exitCode == Some(0) then CheckPassed else CheckFailed)
    && x.evidence.subjectId == subjectId && x.evidence.subjectRevision == revision
    && x.evidence.independenceGroup == "deterministic-runtime" && x.evidence.sha256 == seal(d.command, r)
    && x.evidence.id == name(d.id, seal(d.command, r))
    && x.evidence.assertions
       == [d.title + (if !ended then ": error" else if r.exitCode == Some(0) then ": passed" else ": failed")]
  }

  lemma ResultReads(
    d: CheckDefinition, r: CommandResult, subjectId: string, revision: string,
    seal: (seq<string>, CommandResult) -> string, name: (string, string) -> string)
    ensures ResultSays(ResultOf(d, r, subjectId, revision, seal, name), d, r, subjectId, revision, seal, name)
  {
    assert d.title + ": " + "error" == d.title + ": error" && d.title + ": " + "passed" == d.title + ": passed";
    assert d.title + ": " + "failed" == d.title + ": failed";
  }

  // ---------------------------------------------------------------- what a gate says

  /** The results that carry a check's id; the gate looks at the first. */
  ghost function ResultsFor(results: seq<CheckResult>, checkId: string): seq<CheckResult> {
    Filter(results, (x: CheckResult) => x.checkId == checkId)
  }

  lemma FirstIsFirst(results: seq<CheckResult>, checkId: string)
    ensures var found := ResultsFor(results, checkId);
      FirstResult(results, checkId) == if found == [] then None else Some(found[0])
  {
    if results != [] && results[0].checkId != checkId {
      FirstIsFirst(results[1..], checkId);
    }
  }

  /** What one rule holds against the gate. */
  ghost function RuleSays(rule: Rule, results: seq<CheckResult>, revision: string): seq<Reason> {
    var found := ResultsFor(results, rule.checkId);
    if found == [] then if rule.required then [NoResult(rule.checkId)] else []
    else
      var stale, open := found[0].evidence.subjectRevision != revision, found[0].status == CheckError;
      if stale && open then [StaleEvidence(rule.checkId), NotEvaluated(rule.checkId)]
      else if stale then [StaleEvidence(rule.checkId)]
      else if open then [NotEvaluated(rule.checkId)]
      else []
  }

  ghost function ReviewSays(review: Option<Evidence>, revision: string, group: string): seq<Reason> {
    if review == None then [NoReview]
    else
      var stale, own := review.value.subjectRevision != revision, review.value.independenceGroup == group;
      if stale && own then [StaleReview, NotIndependent]
      else if stale then [StaleReview]
      else if own then [NotIndependent]
      else []
  }

  /** A rule's result failed, or the review does not approve. */
  ghost predicate Condemned(rules: seq<Rule>, results: seq<CheckResult>, review: Option<Evidence>) {
    || (exists k :: 0 <= k < |rules| && RuleCondemned(rules[k], results))
    || (review != None && forall i :: 0 <= i < |review.value.assertions| ==> review.value.assertions[i] != "approved")
  }

  ghost predicate RuleCondemned(rule: Rule, results: seq<CheckResult>) {
    var found := ResultsFor(results, rule.checkId);
    found != [] && found[0].status == CheckFailed
  }

  ghost function EvidenceFor(rule: Rule, results: seq<CheckResult>): seq<string> {
    var found := ResultsFor(results, rule.checkId);
    if found == [] then [] else [found[0].evidence.id]
  }

  ghost function AllSay(rules: seq<Rule>, results: seq<CheckResult>, revision: string): seq<Reason> {
    Flatten(seq(|rules|, k requires 0 <= k < |rules| => RuleSays(rules[k], results, revision)))
  }

  ghost function AllEvidence(rules: seq<Rule>, results: seq<CheckResult>): seq<string> {
    Flatten(seq(|rules|, k requires 0 <= k < |rules| => EvidenceFor(rules[k], results)))
  }

  lemma FlattenSnoc<T>(xs: seq<seq<T>>, x: seq<T>)
    ensures Flatten(xs + [x]) == Flatten(xs) + x
  {
    FlattenAppend(xs, [x]);
    assert [x][1..] == [] && x + [] == x;
  }

  /** What the last rule adds. */
  lemma LastRuleSays(rules: seq<Rule>, results: seq<CheckResult>, revision: string)
    requires rules != []
    ensures var n := |rules| - 1;
      && AllSay(rules, results, revision)
         == AllSay(rules[..n], results, revision) + RuleSays(rules[n], results, revision)
      && AllEvidence(rules, results) == AllEvidence(rules[..n], results) + EvidenceFor(rules[n], results)
  {
    hide RuleSays, EvidenceFor, Flatten;
    var n := |rules| - 1;
    var says := seq(n, k requires 0 <= k < n => RuleSays(rules[..n][k], results, revision));
    var cites := seq(n, k requires 0 <= k < n => EvidenceFor(rules[..n][k], results));
    FlattenSnoc(says, RuleSays(rules[n], results, revision));
    FlattenSnoc(cites, EvidenceFor(rules[n], results));
    assert seq(|rules|, k requires 0 <= k < |rules| => RuleSays(rules[k], results, revision))
        == says + [RuleSays(rules[n], results, revision)];
    assert seq(|rules|, k requires 0 <= k < |rules| => EvidenceFor(rules[k], results))
        == cites + [EvidenceFor(rules[n], results)];
  }

  lemma RuleSaysIt(rule: Rule, results: seq<CheckResult>, revision: string)
    ensures RuleReasons(rule, results, revision) == RuleSays(rule, results, revision)
    ensures RuleEvidence(rule, results) == EvidenceFor(rule, results)
  {
    hide FirstResult, ResultsFor;
    FirstIsFirst(results, rule.checkId);
  }

  lemma {:induction false} ReasonsAre(rules: seq<Rule>, results: seq<CheckResult>, revision: string)
    ensures ReasonsOf(rules, results, revision) == AllSay(rules, results, revision)
    ensures EvidenceOf(rules, results) == AllEvidence(rules, results)
  {
    hide RuleSays, RuleReasons, RuleEvidence, EvidenceFor;
    if rules == [] {
    } else {
      var n := |rules| - 1;
      ReasonsAre(rules[..n], results, revision);
      RuleSaysIt(rules[n], results, revision);
      LastRuleSays(rules, results, revision);
      hide AllSay, AllEvidence;
    }
  }

  lemma CondemnedMeans(rules: seq<Rule>, results: seq<CheckResult>, review: Option<Evidence>)
    ensures (exists r :: r in rules && RuleFails(r, results)) || Disapproves(review)
      <==> Condemned(rules, results, review)
  {
    hide FirstResult, ResultsFor;
    forall rule | rule in rules ensures RuleFails(rule, results) <==> RuleCondemned(rule, results) {
      FirstIsFirst(results, rule.checkId);
    }
    hide RuleFails, RuleCondemned;
    forall k | 0 <= k < |rules| ensures rules[k] in rules {
    }
  }

  /** A gate fails when a rule's result failed or the review does not approve; else it is inconclusive when anything is
      held against it, and else it passes, and only then promotes. It lists what every rule and then the review hold
      against it, and the evidence it looked at, in order. */
  lemma GateReads(
    revision: string, group: string, rules: seq<Rule>, results: seq<CheckResult>, review: Option<Evidence>)
    ensures var g := GateOf(revision, group, rules, results, review);
      && g.reasons == AllSay(rules, results, revision) + ReviewSays(review, revision, group)
      && g.evidenceIds
         == AllEvidence(rules, results) + (match review case None => [] case Some(e) => [e.id])
      && (g.outcome == ReviewGate.Failed <==> Condemned(rules, results, review))
      && (g.outcome == Inconclusive <==> !Condemned(rules, results, review) && g.reasons != [])
      && (g.outcome == Passed <==> !Condemned(rules, results, review) && g.reasons == [])
      && (g.promotable <==> g.outcome == Passed)
  {
    hide FirstResult, ResultsFor, ReasonsOf, EvidenceOf, AllSay, AllEvidence, RuleFails, Condemned;
    ReasonsAre(rules, results, revision);
    CondemnedMeans(rules, results, review);
  }

  // ---------------------------------------------------------------- an attempt

  /** What was checked in an attempt, one result per check run, in order. */
  ghost predicate Checked(p: Ports, input: Input, attempt: nat, revision: string, results: seq<CheckResult>) {
    && |results| <= |input.checks|
    && forall i :: 0 <= i < |results| ==>
         match p.run(attempt, i, input.checks[i])
         case None => false
         case Some(r) => ResultSays(results[i], input.checks[i], r, input.workPackageId, revision, p.seal, p.name)
  }

  lemma {:induction false} ChecksAre(p: Ports, input: Input, attempt: nat, revision: string, n: nat)
    requires n <= |input.checks|
    ensures var results := ChecksDone(p, input, attempt, revision, n);
      && Checked(p, input, attempt, revision, results)
      && (|results| < n ==> p.run(attempt, |results|, input.checks[|results|]) == None)
  {
    hide ResultOf, ResultSays;
    if n > 0 {
      ChecksAre(p, input, attempt, revision, n - 1);
      var i := n - 1;
      if |ChecksDone(p, input, attempt, revision, n - 1)| == i && p.run(attempt, i, input.checks[i]).Some? {
        var r := p.run(attempt, i, input.checks[i]).value;
        ResultReads(input.checks[i], r, input.workPackageId, revision, p.seal, p.name);
      }
    }
  }

  /** A required rule for every check. */
  ghost function RulesOf(checks: seq<CheckDefinition>): seq<Rule> {
    seq(|checks|, i requires 0 <= i < |checks| => Rule(checks[i].id, true))
  }

  /** The attempt got to its verdict: it was carried out, checked and reviewed, and the gate judged it. */
  ghost predicate JudgedAs(
    p: Ports, input: Input, attempt: nat, prior: Option<Gate>, v: Verdict, results: seq<CheckResult>, review: Evidence)
  {
    && |results| == |input.checks| && Checked(p, input, attempt, v.revision, results)
    && match p.execute(attempt, prior)
       case None => false
       case Some(x) =>
         && v.revision == x.revision
         && p.review(attempt, x.revision, x.producerGroup) == Some(ReviewResult(v.approved, review))
         && v.gate == GateOf(x.revision, x.producerGroup, RulesOf(input.checks), results, Some(review))
  }

  ghost function Kind(attempt: nat): RepairLoop.Kind {
    if attempt == 0 then Implementation else Repair
  }

  /** What a judged attempt leaves. */
  ghost predicate LeavesJudged(
    t: Store, input: Input, attempt: nat, v: Verdict, results: seq<CheckResult>, review: Evidence)
  {
    && t.transitions == [
         Entry(input.workPackageId, Running, Started(attempt, Kind(attempt))),
         Entry(input.workPackageId, Verifying, At(attempt, v.revision)),
         Entry(input.workPackageId, Reviewing, At(attempt, v.revision))]
    && |t.evidence| == |results| + 1 && t.evidence[|results|] == review
    && (forall i :: 0 <= i < |results| ==> t.evidence[i] == results[i].evidence)
    && t.gates == [v.gate]
  }

  /** What an attempt leaves that a port cut short: in its execution, in one of its checks, or in its review. */
  ghost predicate LeavesCut(
    t: Store, p: Ports, input: Input, attempt: nat, prior: Option<Gate>, results: seq<CheckResult>)
  {
    var running := Entry(input.workPackageId, Running, Started(attempt, Kind(attempt)));
    && t.gates == [] && |t.evidence| == |results|
    && (forall i :: 0 <= i < |results| ==> t.evidence[i] == results[i].evidence)
    && match p.execute(attempt, prior)
       case None => t.transitions == [running] && results == []
       case Some(x) =>
         var verifying := Entry(input.workPackageId, Verifying, At(attempt, x.revision));
         && Checked(p, input, attempt, x.revision, results)
         && if |results| < |input.checks| then
              t.transitions == [running, verifying] && p.run(attempt, |results|, input.checks[|results|]) == None
            else
              && t.transitions
                 == [running, verifying, Entry(input.workPackageId, Reviewing, At(attempt, x.revision))]
              && p.review(attempt, x.revision, x.producerGroup) == None
  }

  lemma AttemptReads(p: Ports, input: Input, attempt: nat, prior: Option<Gate>)
    returns (results: seq<CheckResult>, review: Evidence)
    ensures var t := TrailOf(p, input, attempt, prior);
      match VerdictOf(p, input, attempt, prior)
      case Some(v) =>
        JudgedAs(p, input, attempt, prior, v, results, review) && LeavesJudged(t, input, attempt, v, results, review)
      case None => LeavesCut(t, p, input, attempt, prior, results)
  {
    hide ChecksDone, GateOf, Checked;
    results, review := [], Evidence("", "", "", "", "", []);
    NothingChecked(p, input, attempt);
    if p.execute(attempt, prior).Some? {
      var x := p.execute(attempt, prior).value;
      results := ChecksDone(p, input, attempt, x.revision, |input.checks|);
      ChecksAre(p, input, attempt, x.revision, |input.checks|);
      if p.review(attempt, x.revision, x.producerGroup).Some? {
        review := p.review(attempt, x.revision, x.producerGroup).value.evidence;
      }
      assert Map(RuleFor(), input.checks) == RulesOf(input.checks);
    }
  }

  lemma NothingChecked(p: Ports, input: Input, attempt: nat)
    ensures forall revision :: Checked(p, input, attempt, revision, [])
  {
  }

  // ---------------------------------------------------------------- the whole run

  /** Everything an attempt adds, in the order of the lists. */
  ghost predicate Adds(before: Store, t: Store, after: Store) {
    && after.transitions == before.transitions + t.transitions
    && after.evidence == before.evidence + t.evidence && after.gates == before.gates + t.gates
  }

  ghost function OneEntry(input: Input, state: State, details: Details): Store {
    Store([Entry(input.workPackageId, state, details)], [], [])
  }

  /** The run from an attempt on: a judged attempt that is acceptable is followed by accepted and closed; one that is
      not by a repair while the budget lasts, and by blocked after it; one cut short by nothing. */
  ghost predicate RunsAs(
    p: Ports, input: Input, budget: nat, attempt: nat, prior: Option<Gate>, s: Store, e: Ending, s': Store)
    requires attempt <= budget
    decreases budget - attempt, 2
  {
    exists t, results, review, s1 ::
      Adds(s, t, s1) && Follows(p, input, budget, attempt, prior, t, results, review, s1, e, s')
  }

  ghost predicate Follows(
    p: Ports, input: Input, budget: nat, attempt: nat, prior: Option<Gate>, t: Store, results: seq<CheckResult>,
    review: Evidence, s1: Store, e: Ending, s': Store)
    requires attempt <= budget
    decreases budget - attempt, 1
  {
    || (LeavesCut(t, p, input, attempt, prior, results) && e == Threw && s' == s1)
    || exists v ::
         && JudgedAs(p, input, attempt, prior, v, results, review)
         && LeavesJudged(t, input, attempt, v, results, review)
         && Judged(p, input, budget, attempt, v, s1, e, s')
  }

  ghost predicate Judged(p: Ports, input: Input, budget: nat, attempt: nat, v: Verdict, s1: Store, e: Ending, s': Store)
    requires attempt <= budget
    decreases budget - attempt, 0
  {
    if v.gate.promotable && v.approved then
      exists s2 ::
        && Adds(s1, OneEntry(input, Accepted, At(attempt, v.revision)), s2)
        && Adds(s2, OneEntry(input, Closed, At(attempt, v.revision)), s')
        && e == Finished(Outcome(FinallyClosed, v.revision, attempt + 1, v.gate))
    else if attempt < budget then
      exists s2 ::
        && Adds(s1, OneEntry(input, RepairRequired, Rejected(attempt, v.gate.reasons)), s2)
        && RunsAs(p, input, budget, attempt + 1, Some(v.gate), s2, e, s')
    else
      && Adds(s1, OneEntry(input, State.Blocked, Exhausted(budget, v.gate.reasons)), s')
      && e == Finished(Outcome(FinallyBlocked, v.revision, budget + 1, v.gate))
  }

  lemma MovedAdds(s: Store, input: Input, state: State, details: Details)
    ensures Adds(s, OneEntry(input, state, details), Moved(s, input, state, details))
  {
  }

  lemma {:induction false} LoopRunsAs(
    p: Ports, input: Input, budget: nat, attempt: nat, prior: Option<Gate>, s: Store)
    requires attempt <= budget
    ensures var (e, s') := RunFrom(p, input, budget, attempt, prior, s);
      RunsAs(p, input, budget, attempt, prior, s, e, s')
    decreases budget - attempt
  {
    hide TrailOf, VerdictOf, JudgedAs, LeavesJudged, LeavesCut, Moved, OneEntry, Judged, Adds;
    var t, v := TrailOf(p, input, attempt, prior), VerdictOf(p, input, attempt, prior);
    var results, review := AttemptReads(p, input, attempt, prior);
    var s1 := Joined(s, t);
    var (e, s') := RunFrom(p, input, budget, attempt, prior, s);
    assert Adds(s, t, s1) by { JoinedAdds(s, t); }
    if v.Some? {
      JudgedLoop(p, input, budget, attempt, prior, s, v.value);
    }
    assert Follows(p, input, budget, attempt, prior, t, results, review, s1, e, s');
  }

  lemma JoinedAdds(s: Store, t: Store)
    ensures Adds(s, t, Joined(s, t))
  {
  }

  lemma {:induction false} JudgedLoop(
    p: Ports, input: Input, budget: nat, attempt: nat, prior: Option<Gate>, s: Store, v: Verdict)
    requires attempt <= budget && VerdictOf(p, input, attempt, prior) == Some(v)
    ensures var (e, s') := RunFrom(p, input, budget, attempt, prior, s);
      Judged(p, input, budget, attempt, v, Joined(s, TrailOf(p, input, attempt, prior)), e, s')
    decreases budget - attempt, 0
  {
    hide TrailOf, VerdictOf, Moved, OneEntry, RunsAs, Adds;
    var s1 := Joined(s, TrailOf(p, input, attempt, prior));
    if v.gate.promotable && v.approved {
      var s2 := Moved(s1, input, Accepted, At(attempt, v.revision));
      MovedAdds(s1, input, Accepted, At(attempt, v.revision));
      MovedAdds(s2, input, Closed, At(attempt, v.revision));
    } else if attempt < budget {
      var s2 := Moved(s1, input, RepairRequired, Rejected(attempt, v.gate.reasons));
      MovedAdds(s1, input, RepairRequired, Rejected(attempt, v.gate.reasons));
      LoopRunsAs(p, input, budget, attempt + 1, Some(v.gate), s2);
    } else {
      MovedAdds(s1, input, State.Blocked, Exhausted(budget, v.gate.reasons));
    }
  }

  /** A negative budget is refused and changes nothing; else the run begins as eligible, and then runs from its first
      attempt on. */
  lemma RunReads(p: Ports, input: Input, s: Store, budget: int)
    requires Allows(input, budget)
    ensures var (e, s') := Run(p, input, s);
      if budget < 0 then e == InvalidBudget && s' == s
      else exists s0 ::
        Adds(s, OneEntry(input, Eligible, NoDetails), s0) && RunsAs(p, input, budget, 0, None, s0, e, s')
  {
    hide RunFrom, RunsAs, Moved, OneEntry, Adds;
    if budget >= 0 {
      MovedAdds(s, input, Eligible, NoDetails);
      LoopRunsAs(p, input, budget, 0, None, Moved(s, input, Eligible, NoDetails));
    }
  }
}
