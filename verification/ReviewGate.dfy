/** The verification engine's reading of a command, and the gate over check results and a review. */
module ReviewGate {
  import opened Collections

  datatype Evidence = Evidence(
    id: string, subjectId: string, subjectRevision: string, independenceGroup: string, sha256: string,
    assertions: seq<string>)

  datatype CheckDefinition = CheckDefinition(id: string, title: string, command: seq<string>)

  /** What running a command reports; `exitCode` is null when the process did not exit by itself. */
  datatype CommandResult = CommandResult(exitCode: Option<int>, stdout: string, stderr: string, timedOut: bool)

  datatype CheckStatus = CheckPassed | CheckFailed | CheckError

  datatype CheckResult = CheckResult(checkId: string, status: CheckStatus, evidence: Evidence)

  function StatusText(s: CheckStatus): string {
    match s
    case CheckPassed => "passed"
    case CheckFailed => "failed"
    case CheckError => "error"
  }

  function StatusOf(r: CommandResult): CheckStatus {
    if r.timedOut || r.exitCode.None? then CheckError
    else if r.exitCode == Some(0) then CheckPassed
    else CheckFailed
  }

  /** The result of one check at one revision. `seal` is the digest of the command and what it printed,
      `name` the evidence id made of the check's id and that digest. */
  function ResultOf(
    d: CheckDefinition, r: CommandResult, subjectId: string, revision: string,
    seal: (seq<string>, CommandResult) -> string, name: (string, string) -> string): CheckResult
  {
    var sha := seal(d.command, r);
    CheckResult(d.id, StatusOf(r),
                Evidence(name(d.id, sha), subjectId, revision, "deterministic-runtime", sha,
                         [d.title + ": " + StatusText(StatusOf(r))]))
  }

  // ---------------------------------------------------------------- the gate

  datatype Rule = Rule(checkId: string, required: bool)

  datatype Outcome = Passed | Failed | Inconclusive

  datatype Reason =
    | NoResult(checkId: string)
    | StaleEvidence(checkId: string)
    | NotEvaluated(checkId: string)
    | NoReview
    | StaleReview
    | NotIndependent

  datatype Gate = Gate(outcome: Outcome, promotable: bool, reasons: seq<Reason>, evidenceIds: seq<string>)

  /** The first result that carries this check's id. */
  function FirstResult(results: seq<CheckResult>, checkId: string): Option<CheckResult> {
    if results == [] then None
    else if results[0].checkId == checkId then Some(results[0])
    else FirstResult(results[1..], checkId)
  }

  function RuleReasons(r: Rule, results: seq<CheckResult>, revision: string): seq<Reason> {
    match FirstResult(results, r.checkId)
    case None => if r.required then [NoResult(r.checkId)] else []
    case Some(x) =>
      (if x.evidence.subjectRevision != revision then [StaleEvidence(r.checkId)] else [])
      + (if x.status == CheckError then [NotEvaluated(r.checkId)] else [])
  }

  function RuleEvidence(r: Rule, results: seq<CheckResult>): seq<string> {
    match FirstResult(results, r.checkId)
    case None => []
    case Some(x) => [x.evidence.id]
  }

  predicate RuleFails(r: Rule, results: seq<CheckResult>) {
    var x := FirstResult(results, r.checkId);
    x.Some? && x.value.status == CheckFailed
  }

  function ReasonsOf(rules: seq<Rule>, results: seq<CheckResult>, revision: string): seq<Reason> {
    if rules == [] then []
    else ReasonsOf(rules[..|rules| - 1], results, revision) + RuleReasons(rules[|rules| - 1], results, revision)
  }

  function EvidenceOf(rules: seq<Rule>, results: seq<CheckResult>): seq<string> {
    if rules == [] then []
    else EvidenceOf(rules[..|rules| - 1], results) + RuleEvidence(rules[|rules| - 1], results)
  }

  function ReviewReasons(review: Option<Evidence>, revision: string, group: string): seq<Reason> {
    match review
    case None => [NoReview]
    case Some(e) =>
      (if e.subjectRevision != revision then [StaleReview] else [])
      + (if e.independenceGroup == group then [NotIndependent] else [])
  }

  predicate Disapproves(review: Option<Evidence>) {
    review.Some? && "approved" !in review.value.assertions
  }

  function GateOf(
    revision: string, group: string, rules: seq<Rule>, results: seq<CheckResult>, review: Option<Evidence>): Gate
  {
    var reasons := ReasonsOf(rules, results, revision) + ReviewReasons(review, revision, group);
    var ids := EvidenceOf(rules, results) + (if review.Some? then [review.value.id] else []);
    if (exists r :: r in rules && RuleFails(r, results)) || Disapproves(review) then Gate(Failed, false, reasons, ids)
    else if reasons != [] then Gate(Inconclusive, false, reasons, ids)
    else Gate(Passed, true, [], ids)
  }

  method FindResult(results: seq<CheckResult>, checkId: string) returns (r: Option<CheckResult>)
    ensures r == FirstResult(results, checkId)
  {
    assert results[0..] == results;
    for i := 0 to |results|
      invariant FirstResult(results, checkId) == FirstResult(results[i..], checkId)
    {
      if results[i].checkId == checkId { return Some(results[i]); }
    }
    r := None;
  }

  lemma FailuresGrow(rules: seq<Rule>, rule: Rule, results: seq<CheckResult>)
    ensures (exists r :: r in rules + [rule] && RuleFails(r, results))
       <==> (exists r :: r in rules && RuleFails(r, results)) || RuleFails(rule, results)
  {
    hide RuleFails;
    if r :| r in rules && RuleFails(r, results) {
      assert r in rules + [rule];
    }
    if RuleFails(rule, results) {
      assert rule in rules + [rule];
    }
  }

  /** What one rule adds: its reasons, the evidence it looked at, and whether it fails the gate. */
  method JudgeRule(rule: Rule, results: seq<CheckResult>, revision: string)
    returns (reasons: seq<Reason>, evidenceIds: seq<string>, fails: bool)
    ensures reasons == RuleReasons(rule, results, revision)
    ensures evidenceIds == RuleEvidence(rule, results) && fails == RuleFails(rule, results)
  {
    hide FirstResult;
    reasons, evidenceIds, fails := [], [], false;
    var result := FindResult(results, rule.checkId);
    if result.None? {
      if rule.required { reasons := [NoResult(rule.checkId)]; }
      return;
    }
    var x := result.value;
    evidenceIds := [x.evidence.id];
    if x.evidence.subjectRevision != revision { reasons := reasons + [StaleEvidence(rule.checkId)]; }
    if x.status == CheckFailed { fails := true; }
    if x.status == CheckError { reasons := reasons + [NotEvaluated(rule.checkId)]; }
  }

  /** The rules, one after the other. */
  method JudgeRules(rules: seq<Rule>, results: seq<CheckResult>, revision: string)
    returns (reasons: seq<Reason>, evidenceIds: seq<string>, failed: bool)
    ensures reasons == ReasonsOf(rules, results, revision) && evidenceIds == EvidenceOf(rules, results)
    ensures failed <==> exists r :: r in rules && RuleFails(r, results)
  {
    hide RuleReasons, RuleEvidence, RuleFails;
    reasons, evidenceIds, failed := [], [], false;
    for i := 0 to |rules|
      invariant reasons == ReasonsOf(rules[..i], results, revision) && evidenceIds == EvidenceOf(rules[..i], results)
      invariant failed <==> exists r :: r in rules[..i] && RuleFails(r, results)
    {
      assert rules[..i + 1][..i] == rules[..i] && rules[..i + 1] == rules[..i] + [rules[i]];
      FailuresGrow(rules[..i], rules[i], results);
      var more, ids, fails := JudgeRule(rules[i], results, revision);
      reasons, evidenceIds, failed := reasons + more, evidenceIds + ids, failed || fails;
    }
    assert rules[..|rules|] == rules;
  }

  /** One pass over the rules, then the review. */
  method EvaluateGate(
    revision: string, group: string, rules: seq<Rule>, results: seq<CheckResult>, review: Option<Evidence>)
    returns (g: Gate)
    ensures g == GateOf(revision, group, rules, results, review)
  {
    hide ReasonsOf, EvidenceOf, RuleFails;
    var reasons, evidenceIds, failed := JudgeRules(rules, results, revision);
    if review.None? {
      reasons := reasons + [NoReview];
    } else {
      var e := review.value;
      evidenceIds := evidenceIds + [e.id];
      if e.subjectRevision != revision { reasons := reasons + [StaleReview]; }
      if e.independenceGroup == group { reasons := reasons + [NotIndependent]; }
      if "approved" !in e.assertions { failed := true; }
    }
    if failed { return Gate(Failed, false, reasons, evidenceIds); }
    if |reasons| > 0 { return Gate(Inconclusive, false, reasons, evidenceIds); }
    g := Gate(Passed, true, [], evidenceIds);
  }

  // ---------------------------------------------------------------- what promotable means

  /** A current, independent, approving review. */
  predicate Approves(review: Option<Evidence>, revision: string, group: string) {
    && review.Some?
    && review.value.subjectRevision == revision && review.value.independenceGroup != group
    && "approved" in review.value.assertions
  }

  /** The rule's own first result passed at this revision, or an optional rule has none. */
  predicate RuleMet(r: Rule, results: seq<CheckResult>, revision: string) {
    match FirstResult(results, r.checkId)
    case None => !r.required
    case Some(x) => x.status == CheckPassed && x.evidence.subjectRevision == revision
  }

  lemma {:induction false} NoReasonsIff(rules: seq<Rule>, results: seq<CheckResult>, revision: string)
    ensures ReasonsOf(rules, results, revision) == [] <==>
      forall r :: r in rules ==> RuleReasons(r, results, revision) == []
  {
    hide RuleReasons;
    if rules == [] {
    } else {
      var front, last := rules[..|rules| - 1], rules[|rules| - 1];
      NoReasonsIff(front, results, revision);
      assert rules == front + [last];
    }
  }

  /** A gate is promotable exactly when every rule is met and the review approves, from an independent
      group and at the subject's revision. */
  lemma PromotableIffMetAndApproved(
    revision: string, group: string, rules: seq<Rule>, results: seq<CheckResult>, review: Option<Evidence>)
    ensures GateOf(revision, group, rules, results, review).promotable <==>
      (forall r :: r in rules ==> RuleMet(r, results, revision)) && Approves(review, revision, group)
  {
    hide FirstResult;
    NoReasonsIff(rules, results, revision);
    forall r ensures RuleMet(r, results, revision) <==>
      RuleReasons(r, results, revision) == [] && !RuleFails(r, results)
    {
    }
  }

  function RuleFor(): CheckDefinition -> Rule {
    (d: CheckDefinition) => Rule(d.id, true)
  }

  function CheckId(): CheckDefinition -> string {
    (d: CheckDefinition) => d.id
  }

  /** One result per check, in order, at the subject's revision: what the repair loop hands to the gate. */
  ghost predicate Aligned(results: seq<CheckResult>, checks: seq<CheckDefinition>, revision: string) {
    && |results| == |checks|
    && forall i :: 0 <= i < |checks| ==>
         results[i].checkId == checks[i].id && results[i].evidence.subjectRevision == revision
  }

  ghost predicate AllPassed(results: seq<CheckResult>) {
    forall i :: 0 <= i < |results| ==> results[i].status == CheckPassed
  }

  lemma {:induction false} FirstResultIs(results: seq<CheckResult>, i: nat)
    requires i < |results|
    requires forall j :: 0 <= j < i ==> results[j].checkId != results[i].checkId
    ensures FirstResult(results, results[i].checkId) == Some(results[i])
  {
    if i == 0 {
    } else {
      assert results[1..][i - 1] == results[i];
      forall j | 0 <= j < i - 1 ensures results[1..][j].checkId != results[i].checkId {
        assert results[1..][j] == results[j + 1];
      }
      FirstResultIs(results[1..], i - 1);
    }
  }

  lemma {:induction false} FirstResultAmong(results: seq<CheckResult>, id: string) returns (i: nat)
    requires exists x :: x in results && x.checkId == id
    ensures i < |results| && results[i].checkId == id && FirstResult(results, id) == Some(results[i])
    ensures forall j :: 0 <= j < i ==> results[j].checkId != id
  {
    if results[0].checkId == id {
      i := 0;
    } else {
      var k := FirstResultAmong(results[1..], id);
      i := k + 1;
      forall j | 0 <= j < i ensures results[j].checkId != id {
        if j > 0 {
          assert results[1..][j - 1] == results[j];
        }
      }
    }
  }

  /** With distinct check ids a promotable gate has seen every result pass. */
  lemma DistinctChecksAllPass(
    checks: seq<CheckDefinition>, results: seq<CheckResult>, revision: string, group: string, review: Option<Evidence>)
    requires NoDuplicates(Map(CheckId(), checks)) && Aligned(results, checks, revision)
    requires GateOf(revision, group, Map(RuleFor(), checks), results, review).promotable
    ensures AllPassed(results)
  {
    hide GateOf, FirstResult, Map;
    var rules, ids := Map(RuleFor(), checks), Map(CheckId(), checks);
    PromotableIffMetAndApproved(revision, group, rules, results, review);
    forall i | 0 <= i < |results| ensures results[i].status == CheckPassed {
      forall j | 0 <= j < i ensures results[j].checkId != results[i].checkId {
        assert ids[j] != ids[i];
      }
      FirstResultIs(results, i);
      assert rules[i] == Rule(checks[i].id, true) && rules[i] in rules;
      assert RuleMet(rules[i], results, revision);
    }
  }

  /** Two checks that share an id: the gate promotes although the later one failed. */
  lemma SharedIdHidesAFailure(
    checks: seq<CheckDefinition>, revision: string, group: string, review: Option<Evidence>, i: nat, j: nat)
    returns (results: seq<CheckResult>)
    requires i < j < |checks| && checks[i].id == checks[j].id && Approves(review, revision, group)
    ensures Aligned(results, checks, revision) && results[j].status == CheckFailed
    ensures GateOf(revision, group, Map(RuleFor(), checks), results, review).promotable
  {
    hide GateOf, FirstResult, Map;
    results := seq(|checks|, k requires 0 <= k < |checks| =>
      CheckResult(checks[k].id, if k == j then CheckFailed else CheckPassed, Evidence("", "", revision, "", "", [])));
    var rules := Map(RuleFor(), checks);
    PromotableIffMetAndApproved(revision, group, rules, results, review);
    forall r | r in rules ensures RuleMet(r, results, revision) {
      var k :| 0 <= k < |checks| && rules[k] == r;
      assert results[k] in results && results[k].checkId == r.checkId;
      var first := FirstResultAmong(results, r.checkId);
      assert results[i].checkId == results[j].checkId;
    }
  }

  /** A promotable gate means that every check passed, whatever the results, exactly when the check ids
      are distinct. */
  lemma PromotableMeansAllPassedIffDistinct(
    checks: seq<CheckDefinition>, revision: string, group: string, review: Option<Evidence>)
    requires Approves(review, revision, group)
    ensures NoDuplicates(Map(CheckId(), checks)) <==>
      forall results: seq<CheckResult> ::
        (Aligned(results, checks, revision)
         && GateOf(revision, group, Map(RuleFor(), checks), results, review).promotable) ==> AllPassed(results)
  {
    hide GateOf, Aligned, Map, Approves;
    var ids := Map(CheckId(), checks);
    if NoDuplicates(ids) {
      forall results: seq<CheckResult> |
        Aligned(results, checks, revision)
        && GateOf(revision, group, Map(RuleFor(), checks), results, review).promotable
        ensures AllPassed(results)
      {
        DistinctChecksAllPass(checks, results, revision, group, review);
      }
    } else {
      var i, j :| 0 <= i < j < |ids| && ids[i] == ids[j];
      assert CheckId()(checks[i]) == CheckId()(checks[j]);
      var results := SharedIdHidesAFailure(checks, revision, group, review, i, j);
      AlignedLength(results, checks, revision);
    }
  }

  lemma AlignedLength(results: seq<CheckResult>, checks: seq<CheckDefinition>, revision: string)
    requires Aligned(results, checks, revision)
    ensures |results| == |checks|
  {
  }
}
