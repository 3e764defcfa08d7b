/** What a gate outcome means, and what can never change it. */
module EvidenceGateProperties {
  import opened Collections
  import opened Text
  import opened Json
  import opened EvidenceGates

  // ---------------------------------------------------------------- meanings

  /** A result whose evidence is complete, unrepeated, independent where asked, of the accepted kinds,
      about this very subject revision, and neither future-dated nor stale. */
  ghost predicate Admissible(r: CheckResult, c: CheckContract, evidence: seq<EvidenceRecord>) {
    && |r.evidenceIds| >= c.minimumEvidence
    && NoDuplicates(r.evidenceIds)
    && (c.requiresIndependentEvaluator ==> r.evaluatorGroup != r.subjectGroup)
    && forall id :: id in r.evidenceIds ==> exists e :: e in evidence && e.id == id && Supports(e, r, c)
  }

  ghost predicate Supports(e: EvidenceRecord, r: CheckResult, c: CheckContract) {
    && e.kind in c.acceptedKinds && e.subjectId == r.subjectId && e.subjectRevision == r.subjectRevision
    && e.collectedAt <= r.evaluatedAt <= e.collectedAt + c.maxAgeSeconds * 1_000_000
  }

  /** An exception the gate must honour for this rule. */
  ghost predicate Excuses(x: GateException, g: GateContract, rule: CheckRule, s: Subject) {
    && rule.waivable && Complete(x)
    && x.gateId == Some(g.id) && x.checkId == Some(rule.checkId)
    && x.subjectId == Some(s.id) && x.subjectRevision == Some(s.revision)
    && x.authority.value in g.acceptedExceptionAuthorities
    && !Blank(x.grantedBy.value) && !Blank(x.rationale.value)
    && s.evaluatedAt <= x.expiresAt.value
  }

  /** The required check is met: an admissible, timely result for this subject revision passed, or
      failed to pass under a valid exception. */
  ghost predicate Met(rule: CheckRule, n: Submission) {
    exists r :: r in n.results && r.checkId == rule.checkId && MetBy(r, rule, n)
  }

  ghost predicate MetBy(r: CheckResult, rule: CheckRule, n: Submission) {
    && rule.checkId in n.library
    && r.subjectId == n.subject.id && r.subjectRevision == n.subject.revision
    && r.evaluatedAt <= n.subject.evaluatedAt
    && Admissible(r, n.library[rule.checkId], n.evidence)
    && (r.status == Passed || HasExcuse(rule, n))
  }

  ghost predicate HasExcuse(rule: CheckRule, n: Submission) {
    exists x :: x in n.exceptions && Excuses(x, n.gate, rule, n.subject)
  }

  /** The fact is there, and is the value asked for or one of them. */
  ghost predicate Holds(p: Predicate, facts: map<string, Json>) {
    && p.fact in facts
    && match p
       case Equals(_, value) => value == facts[p.fact]
       case In(_, values) => exists k :: 0 <= k < |values| && values[k] == facts[p.fact]
  }

  /** A required check, or a conditional one all of whose conditions hold. */
  ghost predicate Asked(rule: CheckRule, facts: map<string, Json>) {
    match rule.requirement
    case Required => true
    case Conditional => forall k :: 0 <= k < |rule.whenAll| ==> Holds(rule.whenAll[k], facts)
    case Advisory => false
  }

  lemma AskedMeans(rule: CheckRule, facts: map<string, Json>)
    ensures SelectedBy(rule, facts) <==> Asked(rule, facts)
  {
    forall p | p in rule.whenAll ensures Matches(p, facts) <==> Holds(p, facts) {
    }
    hide Matches, Holds;
    assert forall k :: 0 <= k < |rule.whenAll| ==> rule.whenAll[k] in rule.whenAll;
  }

  // ---------------------------------------------------------------- admissibility is exact

  lemma {:induction false} CitedFlawsExact(
    ids: seq<string>, r: CheckResult, c: CheckContract, evidence: map<string, EvidenceRecord>)
    ensures CitedFlaws(ids, r, c, evidence) == []
      <==> forall id :: id in ids ==> RecordFlaws(id, r, c, evidence) == []
  {
    hide RecordFlaws;
    if ids == [] {
    } else {
      CitedFlawsExact(ids[..|ids| - 1], r, c, evidence);
      assert ids == ids[..|ids| - 1] + [ids[|ids| - 1]];
    }
  }

  lemma RecordIsGood(id: string, r: CheckResult, c: CheckContract, evidence: seq<EvidenceRecord>)
    requires (forall e :: e in evidence ==> ValidEvidence(e)) && NoDuplicates(Map(EvidenceId(), evidence))
    ensures RecordFlaws(id, r, c, IndexBy(evidence, EvidenceId())) == []
      <==> exists e :: e in evidence && e.id == id && Supports(e, r, c)
  {
    IndexFacts(evidence, EvidenceId());
    var byId := IndexBy(evidence, EvidenceId());
    hide IndexBy, ValidEvidence;
    if e :| e in evidence && e.id == id {
      assert EvidenceId()(e) == id;
      assert byId[id] == e;
      DistinctImages(EvidenceId(), evidence);
      forall e' | e' in evidence && e'.id == id ensures e' == e {
        assert EvidenceId()(e') == EvidenceId()(e);
      }
    } else {
      assert id !in byId;
    }
  }

  lemma NoFlawsIffAdmissible(r: CheckResult, c: CheckContract, evidence: seq<EvidenceRecord>)
    requires (forall e :: e in evidence ==> ValidEvidence(e)) && NoDuplicates(Map(EvidenceId(), evidence))
    ensures Flaws(r, c, IndexBy(evidence, EvidenceId())) == [] <==> Admissible(r, c, evidence)
  {
    hide RecordFlaws, IndexBy, ValidEvidence, Supports, CitedFlaws;
    CitedFlawsExact(r.evidenceIds, r, c, IndexBy(evidence, EvidenceId()));
    forall id ensures RecordFlaws(id, r, c, IndexBy(evidence, EvidenceId())) == []
      <==> exists e :: e in evidence && e.id == id && Supports(e, r, c)
    {
      RecordIsGood(id, r, c, evidence);
    }
  }

  lemma AcceptedIffExcuses(x: GateException, g: GateContract, rule: CheckRule, s: Subject)
    ensures Excuses(x, g, rule, s) <==> x.checkId == Some(rule.checkId) && VerdictOn(x, g, rule, s) == Accepted
  {
    hide Blank;
  }

  lemma ExceptionLookup(n: Submission, checkId: string)
    requires NoDuplicates(Map(ExceptionCheck(), n.exceptions))
    ensures var byCheck := IndexBy(n.exceptions, ExceptionCheck());
      && (forall x :: x in n.exceptions && x.checkId == Some(checkId) ==>
            Some(checkId) in byCheck && byCheck[Some(checkId)] == x)
      && (Some(checkId) in byCheck ==>
            byCheck[Some(checkId)] in n.exceptions && byCheck[Some(checkId)].checkId == Some(checkId))
  {
    hide IndexBy;
    IndexFacts(n.exceptions, ExceptionCheck());
    var byCheck := IndexBy(n.exceptions, ExceptionCheck());
    forall x | x in n.exceptions && x.checkId == Some(checkId)
      ensures Some(checkId) in byCheck && byCheck[Some(checkId)] == x
    {
      assert ExceptionCheck()(x) == Some(checkId);
    }
    if Some(checkId) in byCheck {
      assert ExceptionCheck()(byCheck[Some(checkId)]) == Some(checkId);
    }
  }

  lemma ExceptionIsGood(n: Submission, rule: CheckRule)
    requires NoDuplicates(Map(ExceptionCheck(), n.exceptions))
    ensures var byCheck := IndexBy(n.exceptions, ExceptionCheck());
      (Some(rule.checkId) in byCheck && VerdictOn(byCheck[Some(rule.checkId)], n.gate, rule, n.subject) == Accepted)
      <==> HasExcuse(rule, n)
  {
    hide IndexBy, VerdictOn, Excuses;
    ExceptionLookup(n, rule.checkId);
    var byCheck := IndexBy(n.exceptions, ExceptionCheck());
    if HasExcuse(rule, n) {
      var x :| x in n.exceptions && Excuses(x, n.gate, rule, n.subject);
      AcceptedIffExcuses(x, n.gate, rule, n.subject);
    }
    if Some(rule.checkId) in byCheck {
      AcceptedIffExcuses(byCheck[Some(rule.checkId)], n.gate, rule, n.subject);
    }
  }

  lemma ResultLookup(n: Submission, checkId: string)
    requires NoDuplicates(Map(ResultCheck(), n.results))
    ensures var byCheck := IndexBy(n.results, ResultCheck());
      && (forall r :: r in n.results && r.checkId == checkId ==> checkId in byCheck && byCheck[checkId] == r)
      && (checkId in byCheck ==> byCheck[checkId] in n.results && byCheck[checkId].checkId == checkId)
  {
    hide IndexBy;
    IndexFacts(n.results, ResultCheck());
    var byCheck := IndexBy(n.results, ResultCheck());
    forall r | r in n.results && r.checkId == checkId ensures checkId in byCheck && byCheck[checkId] == r {
      assert ResultCheck()(r) == checkId;
    }
    if checkId in byCheck {
      assert ResultCheck()(byCheck[checkId]) == checkId;
    }
  }

  ghost predicate Submitted(n: Submission) {
    CheckSubmission(n).None?
  }

  lemma MetIffByItsResult(rule: CheckRule, n: Submission)
    requires NoDuplicates(Map(ResultCheck(), n.results))
    ensures var byCheck := IndexBy(n.results, ResultCheck());
      && (Met(rule, n) <==> rule.checkId in byCheck && MetBy(byCheck[rule.checkId], rule, n))
      && ((exists r :: r in n.results && r.checkId == rule.checkId && FailsOutright(r, rule, n))
          <==> rule.checkId in byCheck && FailsOutright(byCheck[rule.checkId], rule, n))
  {
    hide IndexBy, MetBy, FailsOutright;
    ResultLookup(n, rule.checkId);
  }

  /** A judgement closes the check exactly when the check is met, and condemns it exactly when its
      result fails outright. */
  lemma JudgementMeansMet(rule: CheckRule, n: Submission)
    requires Submitted(n) && rule.checkId in n.library && Judge(rule, Indexed(n)).Success?
    ensures var j := Judge(rule, Indexed(n)).value;
      && (j.Passing? || j.Excused? <==> Met(rule, n))
      && (j.Failing? || LeavesOpen(j) <==> !Met(rule, n))
      && (j.Failing? <==> exists r :: r in n.results && r.checkId == rule.checkId && FailsOutright(r, rule, n))
  {
    hide IndexBy, ValidRule, ValidEvidence, Admissible, Flaws, VerdictOn, HasExcuse, Met;
    MetIffByItsResult(rule, n);
    ExceptionIsGood(n, rule);
    var byCheck := IndexBy(n.results, ResultCheck());
    if rule.checkId in byCheck {
      NoFlawsIffAdmissible(byCheck[rule.checkId], n.library[rule.checkId], n.evidence);
    }
  }

  // ---------------------------------------------------------------- promotability

  ghost predicate Evaluated(n: Submission) {
    Evaluate(n).Success?
  }

  lemma {:induction false} JudgedEach(rules: seq<CheckRule>, d: Dossier)
    requires (forall r :: r in rules ==> r.checkId in d.library) && JudgeAll(rules, d).Success?
    ensures var js := JudgeAll(rules, d).value;
      forall i :: 0 <= i < |rules| ==> Judge(rules[i], d) == Success(js[i])
  {
    hide Judge;
    if rules == [] {
    } else {
      var front := rules[..|rules| - 1];
      JudgedEach(front, d);
      forall i | 0 <= i < |rules| - 1 ensures Judge(rules[i], d) == Success(JudgeAll(rules, d).value[i]) {
        assert front[i] == rules[i];
      }
    }
  }

  /** The selected rules of an evaluated gate, with their judgements one to one. */
  lemma EvaluationParts(n: Submission) returns (rules: seq<CheckRule>, js: seq<Judgement>)
    requires Evaluated(n)
    ensures rules == Filter(n.gate.checkRules, Selects(n.facts)) && |js| == |rules|
    ensures forall r :: r in rules ==> r.checkId in n.library && ValidRule(r, n.library)
    ensures forall i :: 0 <= i < |rules| ==> Judge(rules[i], Indexed(n)) == Success(js[i])
    ensures JudgeAll(rules, Indexed(n)) == Success(js)
    ensures Evaluate(n).value == Report(rules, Filter(n.gate.checkRules, Advises()), js)
    ensures Submitted(n)
  {
    hide Judge, IndexBy, ValidEvidence, Report;
    rules := Filter(n.gate.checkRules, Selects(n.facts));
    JudgedEach(rules, Indexed(n));
    js := JudgeAll(rules, Indexed(n)).value;
  }

  lemma OutcomeReadsJudgements(js: seq<Judgement>)
    ensures Promotable(OutcomeOf(js)) <==> forall i :: 0 <= i < |js| ==> !(js[i].Failing? || LeavesOpen(js[i]))
    ensures OutcomeOf(js) == GateFailed <==> exists i :: 0 <= i < |js| && js[i].Failing?
  {
    hide LeavesOpen;
    forall i | 0 <= i < |js| ensures js[i] in js {
    }
  }

  /** A gate is promotable exactly when every selected check is met. */
  lemma PromotableIffAllMet(n: Submission)
    requires Evaluated(n)
    ensures Evaluate(n).value.promotable
      <==> forall rule :: rule in n.gate.checkRules && Asked(rule, n.facts) ==> Met(rule, n)
  {
    hide Judge, Met, SelectedBy, Asked, Submitted, Evaluate, Evaluated, LeavesOpen, ValidRule, ChecksWith, OutcomeOf,
      Indexed;
    var rules, js := EvaluationParts(n);
    OutcomeReadsJudgements(js);
    forall i | 0 <= i < |rules| ensures js[i].Failing? || LeavesOpen(js[i]) <==> !Met(rules[i], n) {
      assert rules[i] in rules;
      JudgementMeansMet(rules[i], n);
    }
    forall rule ensures rule in rules <==> rule in n.gate.checkRules && Asked(rule, n.facts) {
      AskedMeans(rule, n.facts);
    }
  }

  /** The gate fails exactly when some selected check has an admissible, timely result for this subject
      revision that says it failed, and no valid exception covers it. Missing or unusable proof is
      never a failure. */
  lemma FailedIffUnexcusedFailure(n: Submission)
    requires Evaluated(n)
    ensures Evaluate(n).value.outcome == GateFailed
      <==> exists rule, r :: rule in n.gate.checkRules && Asked(rule, n.facts) && r in n.results
             && r.checkId == rule.checkId && FailsOutright(r, rule, n)
  {
    hide Judge, Met, SelectedBy, Asked, Submitted, Evaluate, Evaluated, LeavesOpen, ValidRule, ChecksWith, OutcomeOf,
      Indexed, FailsOutright;
    var rules, js := EvaluationParts(n);
    OutcomeReadsJudgements(js);
    forall i | 0 <= i < |rules| ensures js[i].Failing?
      <==> exists r :: r in n.results && r.checkId == rules[i].checkId && FailsOutright(r, rules[i], n)
    {
      assert rules[i] in rules;
      JudgementMeansMet(rules[i], n);
    }
    forall rule ensures rule in rules <==> rule in n.gate.checkRules && Asked(rule, n.facts) {
      AskedMeans(rule, n.facts);
    }
    if exists i :: 0 <= i < |js| && js[i].Failing? {
      var i :| 0 <= i < |js| && js[i].Failing?;
      assert rules[i] in rules;
    }
  }

  ghost predicate FailsOutright(r: CheckResult, rule: CheckRule, n: Submission) {
    && rule.checkId in n.library
    && r.subjectId == n.subject.id && r.subjectRevision == n.subject.revision
    && r.evaluatedAt <= n.subject.evaluatedAt && r.status == Failed
    && Admissible(r, n.library[rule.checkId], n.evidence)
    && !HasExcuse(rule, n)
  }

  /** A hard control is never excused: behind a promotable gate it passed, on admissible evidence for
      this subject revision. */
  lemma HardControlsAreNeverExcused(n: Submission, rule: CheckRule)
    requires Evaluated(n) && Evaluate(n).value.promotable
    requires rule in n.gate.checkRules && rule.hardControl && Asked(rule, n.facts)
    ensures exists r :: r in n.results && r.checkId == rule.checkId && r.status == Passed && MetBy(r, rule, n)
  {
    PromotableIffAllMet(n);
    assert ValidRule(rule, n.library);
    assert Met(rule, n);
  }

  // ---------------------------------------------------------------- what cannot change an outcome

  /** New facts only ever add to what is required. */
  lemma SelectionIsMonotone(rule: CheckRule, facts: map<string, Json>, more: map<string, Json>)
    requires facts.Keys <= more.Keys && forall k :: k in facts ==> more[k] == facts[k]
    requires Asked(rule, facts)
    ensures Asked(rule, more)
  {
    if rule.requirement == Conditional {
      forall k | 0 <= k < |rule.whenAll| ensures Holds(rule.whenAll[k], more) {
        assert Holds(rule.whenAll[k], facts);
      }
    }
  }

  lemma {:induction false} JudgingEachSucceeds(rules: seq<CheckRule>, d: Dossier)
    requires forall r :: r in rules ==> r.checkId in d.library && Judge(r, d).Success?
    ensures JudgeAll(rules, d).Success?
  {
    hide Judge;
    if rules == [] {
    } else {
      JudgingEachSucceeds(rules[..|rules| - 1], d);
      assert rules[|rules| - 1] in rules;
    }
  }

  /** Adding facts never makes a gate promotable: what is promotable with more facts was promotable
      (and evaluated) with fewer. */
  lemma MoreFactsNeverPromote(n: Submission, more: map<string, Json>)
    requires n.facts.Keys <= more.Keys && forall k :: k in n.facts ==> more[k] == n.facts[k]
    requires Evaluated(n.(facts := more)) && Evaluate(n.(facts := more)).value.promotable
    ensures Evaluated(n) && Evaluate(n).value.promotable
  {
    hide Judge, JudgeAll, Met, IndexBy, ValidRule, ValidEvidence, SelectedBy, Asked, Report, Evaluate, Submitted;
    var n' := n.(facts := more);
    PromotableIffAllMet(n');
    FewerFactsStillEvaluate(n, more);
    PromotableIffAllMet(n);
    forall rule | rule in n.gate.checkRules && Asked(rule, n.facts) ensures Met(rule, n) {
      SelectionIsMonotone(rule, n.facts, more);
      assert Met(rule, n');
      MetIgnoresFacts(rule, n, more);
    }
  }

  /** With fewer facts fewer rules are selected, and what was judged is judged again. */
  lemma FewerFactsStillEvaluate(n: Submission, more: map<string, Json>)
    requires n.facts.Keys <= more.Keys && forall k :: k in n.facts ==> more[k] == n.facts[k]
    requires Evaluated(n.(facts := more))
    ensures Evaluated(n)
  {
    hide Judge, JudgeAll, IndexBy, ValidRule, ValidEvidence, SelectedBy, Asked, Report, Filter;
    var n' := n.(facts := more);
    var rules', js' := EvaluationParts(n');
    var rules := Filter(n.gate.checkRules, Selects(n.facts));
    forall r | r in rules ensures r.checkId in n.library && Judge(r, Indexed(n)).Success? {
      AskedMeans(r, n.facts);
      SelectionIsMonotone(r, n.facts, more);
      AskedMeans(r, more);
      assert Selects(more)(r) && r in rules';
      var i :| 0 <= i < |rules'| && rules'[i] == r;
      assert Judge(rules'[i], Indexed(n')) == Success(js'[i]);
      assert Indexed(n') == Indexed(n);
    }
    JudgingEachSucceeds(rules, Indexed(n));
    EvaluatedIff(n);
    assert CheckSubmission(n) == CheckSubmission(n');
  }

  /** A submission is evaluated exactly when it passes its checks and every selected rule can be judged. */
  lemma EvaluatedIff(n: Submission)
    ensures Evaluated(n) <==>
      Submitted(n) && JudgeAll(Filter(n.gate.checkRules, Selects(n.facts)), Indexed(n)).Success?
  {
    hide JudgeAll, IndexBy, ValidRule, ValidEvidence, Report, Filter, CheckSubmission;
  }

  lemma MetIgnoresFacts(rule: CheckRule, n: Submission, more: map<string, Json>)
    ensures Met(rule, n) <==> Met(rule, n.(facts := more))
  {
    hide Admissible, Excuses;
    forall r ensures MetBy(r, rule, n) <==> MetBy(r, rule, n.(facts := more)) {
    }
  }

  /** Evidence records filed under fresh ids leave every cited record as it was. */
  lemma FreshEvidenceIsIgnored(
    ids: seq<string>, r: CheckResult, c: CheckContract,
    evidence: map<string, EvidenceRecord>, larger: map<string, EvidenceRecord>)
    requires evidence.Keys <= larger.Keys && forall id :: id in evidence ==> larger[id] == evidence[id]
    requires CitedFlaws(ids, r, c, evidence) == []
    ensures CitedFlaws(ids, r, c, larger) == []
  {
    hide AgeFlaw, ValidEvidence;
    CitedFlawsExact(ids, r, c, evidence);
    CitedFlawsExact(ids, r, c, larger);
    forall id | id in ids ensures RecordFlaws(id, r, c, larger) == [] {
      assert RecordFlaws(id, r, c, evidence) == [];
    }
  }

  lemma PrefixKeysDistinct(evidence: seq<EvidenceRecord>, extra: seq<EvidenceRecord>)
    requires NoDuplicates(Map(EvidenceId(), evidence + extra))
    ensures NoDuplicates(Map(EvidenceId(), evidence))
  {
    PrefixDistinct(EvidenceId(), evidence + extra, |evidence|);
    assert (evidence + extra)[..|evidence|] == evidence;
  }

  lemma IndexGrows(evidence: seq<EvidenceRecord>, extra: seq<EvidenceRecord>)
    requires NoDuplicates(Map(EvidenceId(), evidence + extra))
    ensures var before, after := IndexBy(evidence, EvidenceId()), IndexBy(evidence + extra, EvidenceId());
      before.Keys <= after.Keys && forall id :: id in before ==> after[id] == before[id]
  {
    hide IndexBy, Map;
    IndexFacts(evidence, EvidenceId());
    IndexFacts(evidence + extra, EvidenceId());
    var before, after := IndexBy(evidence, EvidenceId()), IndexBy(evidence + extra, EvidenceId());
    forall id | id in before ensures id in after && after[id] == before[id] {
      assert before[id] in evidence + extra;
      assert EvidenceId()(before[id]) == id;
    }
  }

  lemma JudgementSurvives(rule: CheckRule, d: Dossier, larger: map<string, EvidenceRecord>)
    requires rule.checkId in d.library && Judge(rule, d).Success?
    requires Judge(rule, d).value.Passing? || Judge(rule, d).value.Excused?
    requires d.evidence.Keys <= larger.Keys && forall id :: id in d.evidence ==> larger[id] == d.evidence[id]
    ensures Judge(rule, d.(evidence := larger)) == Judge(rule, d)
  {
    hide CitedFlaws, GeneralFlaws, VerdictOn;
    var r, c := d.results[rule.checkId], d.library[rule.checkId];
    FreshEvidenceIsIgnored(r.evidenceIds, r, c, d.evidence, larger);
  }

  lemma {:induction false} JudgementsSurvive(rules: seq<CheckRule>, d: Dossier, larger: map<string, EvidenceRecord>)
    requires (forall r :: r in rules ==> r.checkId in d.library) && JudgeAll(rules, d).Success?
    requires forall j :: j in JudgeAll(rules, d).value ==> j.Passing? || j.Excused?
    requires d.evidence.Keys <= larger.Keys && forall id :: id in d.evidence ==> larger[id] == d.evidence[id]
    ensures JudgeAll(rules, d.(evidence := larger)) == JudgeAll(rules, d)
  {
    hide Judge;
    if rules == [] {
    } else {
      var front, last := rules[..|rules| - 1], rules[|rules| - 1];
      var js := JudgeAll(rules, d).value;
      assert js == JudgeAll(front, d).value + [Judge(last, d).value];
      JudgementsSurvive(front, d, larger);
      assert last in rules;
      JudgementSurvives(last, d, larger);
    }
  }

  /** Filing further valid evidence under fresh ids leaves a promotable evaluation exactly as it was. */
  lemma FreshEvidenceNeverDemotes(n: Submission, extra: seq<EvidenceRecord>)
    requires Evaluated(n) && Evaluate(n).value.promotable
    requires (forall e :: e in extra ==> ValidEvidence(e)) && NoDuplicates(Map(EvidenceId(), n.evidence + extra))
    ensures Evaluate(n.(evidence := n.evidence + extra)) == Evaluate(n)
  {
    hide Judge, JudgeAll, IndexBy, ValidEvidence, ValidGateContract, SelectedBy, NoDuplicates, Map, Filter, OutcomeOf,
      ChecksWith, ExcusesIn;
    var n' := n.(evidence := n.evidence + extra);
    var rules, js := EvaluationParts(n);
    IndexGrows(n.evidence, extra);
    PrefixKeysDistinct(n.evidence, extra);
    assert CheckSubmission(n').None?;
    forall j | j in js ensures j.Passing? || j.Excused? {
      ClosedJudgement(js, j);
    }
    JudgementsSurvive(rules, Indexed(n), IndexBy(n'.evidence, EvidenceId()));
    assert Indexed(n') == Indexed(n).(evidence := IndexBy(n'.evidence, EvidenceId()));
  }

  lemma ClosedJudgement(js: seq<Judgement>, j: Judgement)
    requires Promotable(OutcomeOf(js)) && j in js
    ensures j.Passing? || j.Excused?
  {
  }
}
