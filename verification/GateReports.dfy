/** A gate evaluation read off the gate, the facts, the results, the evidence and the exceptions alone: which checks
    it requires, what it says of each, its outcome, and when it is refused. */
module GateReports {
  import opened Collections
  import opened Json
  import opened Text
  import opened EvidenceGates
  import opened EvidenceGateProperties
  import opened EventLog
  import opened EventLogProperties

  // ---------------------------------------------------------------- which checks are required

  /** These ids are the checks of these rules, in the order of the rules. */
  ghost predicate InRuleOrder(ids: seq<string>, rules: seq<CheckRule>) {
    forall i, j :: 0 <= i < j < |ids| ==>
      exists a, b :: 0 <= a < b < |rules| && rules[a].checkId == ids[i] && rules[b].checkId == ids[j]
  }

  lemma ChecksInOrder(rules: seq<CheckRule>, p: CheckRule -> bool)
    ensures InRuleOrder(Map(RuleCheck(), Filter(rules, p)), rules)
    ensures forall id ::
      id in Map(RuleCheck(), Filter(rules, p)) <==> exists rule :: rule in rules && p(rule) && rule.checkId == id
    ensures NoDuplicates(Map(RuleCheck(), rules)) ==> NoDuplicates(Map(RuleCheck(), Filter(rules, p)))
  {
    hide Filter, NoDuplicates, InRuleOrder, Map;
    ChosenInOrder(rules, p);
    ChosenAre(rules, p);
    if NoDuplicates(Map(RuleCheck(), rules)) {
      ChosenAreDistinct(rules, p);
    }
  }

  lemma ChosenInOrder(rules: seq<CheckRule>, p: CheckRule -> bool)
    ensures InRuleOrder(Map(RuleCheck(), Filter(rules, p)), rules)
  {
    hide Filter;
    var ids := Map(RuleCheck(), Filter(rules, p));
    forall i, j | 0 <= i < j < |ids| ensures
      exists a, b :: 0 <= a < b < |rules| && rules[a].checkId == ids[i] && rules[b].checkId == ids[j]
    {
      FilterInOrder(rules, p, i, j);
    }
  }

  lemma ChosenAre(rules: seq<CheckRule>, p: CheckRule -> bool)
    ensures forall id ::
      id in Map(RuleCheck(), Filter(rules, p)) <==> exists rule :: rule in rules && p(rule) && rule.checkId == id
  {
    hide Filter;
    var chosen := Filter(rules, p);
    var ids := Map(RuleCheck(), chosen);
    forall id | id in ids ensures exists rule :: rule in rules && p(rule) && rule.checkId == id {
      var k :| 0 <= k < |ids| && ids[k] == id;
      assert chosen[k] in chosen;
    }
    forall rule | rule in rules && p(rule) ensures rule.checkId in ids {
      MapMembers(RuleCheck(), chosen, rule);
    }
  }

  lemma ChosenAreDistinct(rules: seq<CheckRule>, p: CheckRule -> bool)
    requires NoDuplicates(Map(RuleCheck(), rules))
    ensures NoDuplicates(Map(RuleCheck(), Filter(rules, p)))
  {
    hide Filter;
    var all, ids := Map(RuleCheck(), rules), Map(RuleCheck(), Filter(rules, p));
    forall i, j | 0 <= i < j < |ids| ensures ids[i] != ids[j] {
      FilterInOrder(rules, p, i, j);
      var a, b :| 0 <= a < b < |rules| && rules[a] == Filter(rules, p)[i] && rules[b] == Filter(rules, p)[j];
      assert all[a] != all[b];
    }
  }

  /** The required checks are, in rule order and once each, those of the required rules and of the conditional rules
      whose conditions hold; the advisory ones those of the advisory rules. */
  lemma RequiredChecksAre(n: Submission)
    requires Evaluated(n)
    ensures var e := Evaluate(n).value;
      && NoDuplicates(e.requiredChecks) && InRuleOrder(e.requiredChecks, n.gate.checkRules)
      && (forall id :: id in e.requiredChecks <==>
            exists rule :: rule in n.gate.checkRules && Asked(rule, n.facts) && rule.checkId == id)
      && NoDuplicates(e.advisoryChecks) && InRuleOrder(e.advisoryChecks, n.gate.checkRules)
      && (forall id :: id in e.advisoryChecks <==>
            exists rule :: rule in n.gate.checkRules && rule.requirement == Advisory && rule.checkId == id)
  {
    hide SelectedBy, Asked, InRuleOrder, NoDuplicates, Submitted, Evaluate, Judge, JudgeAll, ChecksWith, Filter, Map,
      ValidRule, ExcusesIn, Indexed;
    var rules, js := EvaluationParts(n);
    RulesAreDistinct(n);
    ChecksInOrder(n.gate.checkRules, Selects(n.facts));
    ChecksInOrder(n.gate.checkRules, Advises());
    forall rule ensures SelectedBy(rule, n.facts) <==> Asked(rule, n.facts) {
      AskedMeans(rule, n.facts);
    }
  }

  lemma RulesAreDistinct(n: Submission)
    requires Submitted(n)
    ensures NoDuplicates(Map(RuleCheck(), n.gate.checkRules))
  {
    hide NoDuplicates, Map, ValidRule, ValidEvidence;
  }

  // ---------------------------------------------------------------- what is said of each check

  /** The result is for the rule's check and about the gate's subject revision. */
  ghost predicate AboutSubject(r: CheckResult, rule: CheckRule, n: Submission) {
    && r in n.results && r.checkId == rule.checkId
    && r.subjectId == n.subject.id && r.subjectRevision == n.subject.revision
  }

  /** It is not dated after the gate either, and made with the check in the library. */
  ghost predicate Usable(r: CheckResult, rule: CheckRule, n: Submission) {
    && AboutSubject(r, rule, n) && r.evaluatedAt <= n.subject.evaluatedAt
    && rule.checkId in n.library && n.library[rule.checkId].id == rule.checkId
    && n.library[rule.checkId].version == r.checkVersion
  }

  ghost predicate Proves(r: CheckResult, rule: CheckRule, n: Submission) {
    Usable(r, rule, n) && Admissible(r, n.library[rule.checkId], n.evidence)
  }

  ghost predicate CitesRecord(r: CheckResult, id: string, e: EvidenceRecord, evidence: seq<EvidenceRecord>) {
    id in r.evidenceIds && e in evidence && e.id == id
  }

  /** What can be wrong with the evidence of a result. */
  ghost predicate HasFlaw(f: Flaw, r: CheckResult, c: CheckContract, evidence: seq<EvidenceRecord>) {
    match f
    case TooFew => |r.evidenceIds| < c.minimumEvidence
    case DuplicateIds => exists i, j :: 0 <= i < j < |r.evidenceIds| && r.evidenceIds[i] == r.evidenceIds[j]
    case NotIndependent => c.requiresIndependentEvaluator && r.subjectGroup == r.evaluatorGroup
    case MissingRecord(id) => id in r.evidenceIds && forall e :: e in evidence ==> e.id != id
    case InvalidRecord(_) => false
    case UnacceptedKind(id) => exists e :: CitesRecord(r, id, e, evidence) && e.kind !in c.acceptedKinds
    case OtherSubject(id) => exists e :: CitesRecord(r, id, e, evidence) && e.subjectId != r.subjectId
    case OtherRevision(id) => exists e :: CitesRecord(r, id, e, evidence) && e.subjectRevision != r.subjectRevision
    case FutureDated(id) => exists e :: CitesRecord(r, id, e, evidence) && e.collectedAt > r.evaluatedAt
    case Stale(id) =>
      exists e :: CitesRecord(r, id, e, evidence) && r.evaluatedAt > e.collectedAt + c.maxAgeSeconds * 1_000_000
  }

  lemma {:induction false} CitedFlawsMembers(
    ids: seq<string>, r: CheckResult, c: CheckContract, evidence: map<string, EvidenceRecord>, f: Flaw)
    ensures f in CitedFlaws(ids, r, c, evidence) <==> exists id :: id in ids && f in RecordFlaws(id, r, c, evidence)
  {
    hide RecordFlaws;
    if ids == [] {
    } else {
      CitedFlawsMembers(ids[..|ids| - 1], r, c, evidence, f);
      assert ids == ids[..|ids| - 1] + [ids[|ids| - 1]];
    }
  }

  ghost predicate RecordHasFlaw(f: Flaw, id: string, r: CheckResult, c: CheckContract, evidence: seq<EvidenceRecord>) {
    match f
    case MissingRecord(x) => x == id && forall e :: e in evidence ==> e.id != id
    case UnacceptedKind(x) => x == id && exists e :: e in evidence && e.id == id && e.kind !in c.acceptedKinds
    case OtherSubject(x) => x == id && exists e :: e in evidence && e.id == id && e.subjectId != r.subjectId
    case OtherRevision(x) =>
      x == id && exists e :: e in evidence && e.id == id && e.subjectRevision != r.subjectRevision
    case FutureDated(x) => x == id && exists e :: e in evidence && e.id == id && e.collectedAt > r.evaluatedAt
    case Stale(x) =>
      x == id && exists e :: e in evidence && e.id == id && r.evaluatedAt > e.collectedAt + c.maxAgeSeconds * 1_000_000
    case _ => false
  }

  lemma RecordLookup(evidence: seq<EvidenceRecord>, id: string)
    requires NoDuplicates(Map(EvidenceId(), evidence))
    ensures var byId := IndexBy(evidence, EvidenceId());
      && (forall e :: e in evidence && e.id == id ==> id in byId && byId[id] == e)
      && (id in byId ==> byId[id] in evidence && byId[id].id == id)
  {
    hide IndexBy;
    IndexFacts(evidence, EvidenceId());
    forall e | e in evidence && e.id == id
      ensures id in IndexBy(evidence, EvidenceId()) && IndexBy(evidence, EvidenceId())[id] == e
    {
      assert EvidenceId()(e) == id;
    }
    if id in IndexBy(evidence, EvidenceId()) {
      assert EvidenceId()(IndexBy(evidence, EvidenceId())[id]) == id;
    }
  }

  lemma RecordFlawsMean(id: string, r: CheckResult, c: CheckContract, evidence: seq<EvidenceRecord>, f: Flaw)
    requires (forall e :: e in evidence ==> ValidEvidence(e)) && NoDuplicates(Map(EvidenceId(), evidence))
    requires c.maxAgeSeconds >= 0
    ensures f in RecordFlaws(id, r, c, IndexBy(evidence, EvidenceId())) <==> RecordHasFlaw(f, id, r, c, evidence)
  {
    hide IndexBy, ValidEvidence, NoDuplicates;
    RecordLookup(evidence, id);
  }

  /** The flaws of a result are exactly what is wrong with its evidence. */
  lemma FlawsAre(r: CheckResult, c: CheckContract, evidence: seq<EvidenceRecord>, f: Flaw)
    requires (forall e :: e in evidence ==> ValidEvidence(e)) && NoDuplicates(Map(EvidenceId(), evidence))
    requires c.maxAgeSeconds >= 0
    ensures f in Flaws(r, c, IndexBy(evidence, EvidenceId())) <==> HasFlaw(f, r, c, evidence)
  {
    hide IndexBy, ValidEvidence, RecordFlaws, CitedFlaws;
    CitedFlawsMembers(r.evidenceIds, r, c, IndexBy(evidence, EvidenceId()), f);
    forall id
      ensures f in RecordFlaws(id, r, c, IndexBy(evidence, EvidenceId())) <==> RecordHasFlaw(f, id, r, c, evidence)
    {
      RecordFlawsMean(id, r, c, evidence, f);
    }
    RecordsHaveFlaw(f, r, c, evidence);
  }

  lemma RecordsHaveFlaw(f: Flaw, r: CheckResult, c: CheckContract, evidence: seq<EvidenceRecord>)
    ensures !(f.TooFew? || f.DuplicateIds? || f.NotIndependent?) ==>
      (HasFlaw(f, r, c, evidence) <==> exists id :: id in r.evidenceIds && RecordHasFlaw(f, id, r, c, evidence))
    ensures f.TooFew? || f.DuplicateIds? || f.NotIndependent? ==>
      forall id :: !RecordHasFlaw(f, id, r, c, evidence)
  {
  }

  /** Why an exception is no excuse, the first reason in the order they are looked at. */
  ghost predicate RejectedFor(x: GateException, why: Rejection, rule: CheckRule, n: Submission) {
    var complete := x.id != None && x.gateId != None && x.checkId != None && x.subjectId != None
      && x.subjectRevision != None && x.authority != None && x.grantedBy != None && x.rationale != None
      && x.expiresAt != None;
    var bound := x.subjectId == Some(n.subject.id) && x.subjectRevision == Some(n.subject.revision);
    match why
    case NonWaivable => !rule.waivable
    case Incomplete => rule.waivable && !complete
    case OtherGateOrCheck => rule.waivable && complete && x.gateId != Some(n.gate.id)
    case OtherSubjectRevision => rule.waivable && complete && x.gateId == Some(n.gate.id) && !bound
    case UnacceptedAuthority =>
      && rule.waivable && complete && x.gateId == Some(n.gate.id) && bound
      && x.authority.value !in n.gate.acceptedExceptionAuthorities
    case HasExpired =>
      && rule.waivable && complete && x.gateId == Some(n.gate.id) && bound
      && x.authority.value in n.gate.acceptedExceptionAuthorities
      && !Blank(x.grantedBy.value) && !Blank(x.rationale.value) && n.subject.evaluatedAt > x.expiresAt.value
  }

  /** The exception would do, but nobody is named for it, or no reason is. */
  ghost predicate Unnamed(x: GateException, rule: CheckRule, n: Submission) {
    && rule.waivable && Complete(x)
    && x.gateId == Some(n.gate.id) && x.checkId == Some(rule.checkId)
    && x.subjectId == Some(n.subject.id) && x.subjectRevision == Some(n.subject.revision)
    && x.authority.value in n.gate.acceptedExceptionAuthorities
    && (Blank(x.grantedBy.value) || Blank(x.rationale.value))
  }

  lemma VerdictMeans(x: GateException, rule: CheckRule, n: Submission)
    requires x.checkId == Some(rule.checkId)
    ensures match VerdictOn(x, n.gate, rule, n.subject)
      case Accepted => Excuses(x, n.gate, rule, n.subject)
      case Rejected(why) => RejectedFor(x, why, rule, n)
      case Unaccountable => Unnamed(x, rule, n)
    ensures Unnamed(x, rule, n) ==> VerdictOn(x, n.gate, rule, n.subject) == Unaccountable
  {
    hide Blank;
  }

  ghost predicate NotExcused(why: Option<Rejection>, rule: CheckRule, n: Submission) {
    match why
    case None => forall x :: x in n.exceptions ==> x.checkId != Some(rule.checkId)
    case Some(w) => exists x :: x in n.exceptions && x.checkId == Some(rule.checkId) && RejectedFor(x, w, rule, n)
  }

  /** What a judgement says of the rule's check. */
  ghost predicate JudgedAs(j: Judgement, rule: CheckRule, n: Submission) {
    match j
    case NoResult => forall r :: r in n.results ==> r.checkId != rule.checkId
    case WrongSubject => exists r :: r in n.results && r.checkId == rule.checkId && !AboutSubject(r, rule, n)
    case DatedAfterGate => exists r :: AboutSubject(r, rule, n) && n.subject.evaluatedAt < r.evaluatedAt
    case Inadmissible(flaws) =>
      exists r ::
        Usable(r, rule, n) && !Admissible(r, n.library[rule.checkId], n.evidence) && FlawsOf(flaws, r, rule, n)
    case Passing => exists r :: Proves(r, rule, n) && r.status == Passed
    case Excused(id) =>
      exists r, x ::
        Proves(r, rule, n) && r.status != Passed && ExcusedBy(x, rule, n) && x.id == Some(id)
    case Failing(why) => exists r :: Proves(r, rule, n) && r.status == Failed && NotExcused(why, rule, n)
    case Unproven(status, why) =>
      exists r ::
        Proves(r, rule, n) && r.status == status != Passed && status != Failed && NotExcused(why, rule, n)
  }

  ghost predicate FlawsOf(flaws: seq<Flaw>, r: CheckResult, rule: CheckRule, n: Submission) {
    && rule.checkId in n.library
    && forall f :: f in flaws <==> HasFlaw(f, r, n.library[rule.checkId], n.evidence)
  }

  ghost predicate ExcusedBy(x: GateException, rule: CheckRule, n: Submission) {
    x in n.exceptions && Excuses(x, n.gate, rule, n.subject)
  }

  /** The result names another check or version than the library has under the rule's id. */
  ghost predicate Mismatched(rule: CheckRule, n: Submission) {
    exists r :: AboutSubject(r, rule, n) && r.evaluatedAt <= n.subject.evaluatedAt && !Usable(r, rule, n)
  }

  /** An exception is looked at and nobody answers for it. */
  ghost predicate UnansweredFor(rule: CheckRule, n: Submission) {
    && (exists r :: Proves(r, rule, n) && r.status != Passed)
    && (exists x :: x in n.exceptions && Unnamed(x, rule, n))
  }

  lemma OneResult(rule: CheckRule, n: Submission)
    requires Submitted(n)
    ensures var byCheck := IndexBy(n.results, ResultCheck());
      && (rule.checkId in byCheck ==> byCheck[rule.checkId] in n.results)
      && forall r :: r in n.results && r.checkId == rule.checkId <==>
           rule.checkId in byCheck && r == byCheck[rule.checkId]
  {
    hide IndexBy, ValidGateContract, ValidEvidence;
    ResultLookup(n, rule.checkId);
  }

  lemma OneException(rule: CheckRule, n: Submission)
    requires Submitted(n)
    ensures var byCheck := IndexBy(n.exceptions, ExceptionCheck());
      forall x :: x in n.exceptions && x.checkId == Some(rule.checkId) <==>
        Some(rule.checkId) in byCheck && x == byCheck[Some(rule.checkId)]
  {
    hide IndexBy, ValidGateContract, ValidEvidence;
    ExceptionLookup(n, rule.checkId);
  }

  lemma SubmittedFacts(rule: CheckRule, n: Submission)
    requires Submitted(n) && rule in n.gate.checkRules
    ensures rule.checkId in n.library && n.library[rule.checkId].maxAgeSeconds >= 0
    ensures (forall e :: e in n.evidence ==> ValidEvidence(e)) && NoDuplicates(Map(EvidenceId(), n.evidence))
  {
    hide ValidEvidence, NoDuplicates, Map;
  }

  lemma JudgeResult(rule: CheckRule, n: Submission, r: CheckResult)
    requires Submitted(n) && rule in n.gate.checkRules && rule.checkId in n.library
    requires r in n.results && r.checkId == rule.checkId
    ensures var d := Indexed(n);
      rule.checkId in d.results && d.results[rule.checkId] == r
    ensures Flaws(r, n.library[rule.checkId], Indexed(n).evidence) == []
      <==> Admissible(r, n.library[rule.checkId], n.evidence)
    ensures FlawsOf(Flaws(r, n.library[rule.checkId], Indexed(n).evidence), r, rule, n)
  {
    hide IndexBy, ValidEvidence, Admissible, HasFlaw, Flaws, Submitted;
    OneResult(rule, n);
    SubmittedFacts(rule, n);
    NoFlawsIffAdmissible(r, n.library[rule.checkId], n.evidence);
    forall f ensures f in Flaws(r, n.library[rule.checkId], Indexed(n).evidence)
      <==> HasFlaw(f, r, n.library[rule.checkId], n.evidence)
    {
      FlawsAre(r, n.library[rule.checkId], n.evidence, f);
    }
  }

  lemma JudgeWithout(rule: CheckRule, n: Submission)
    requires rule.checkId in n.library && forall r :: r in n.results ==> r.checkId != rule.checkId
    ensures JudgedAs(NoResult, rule, n) && !Mismatched(rule, n) && !UnansweredFor(rule, n)
  {
    hide Admissible, Unnamed;
  }

  /** The judgements of a result that proves something: it passed, or an exception is looked for. */
  lemma JudgeProven(rule: CheckRule, n: Submission, r: CheckResult)
    requires Submitted(n) && rule in n.gate.checkRules && rule.checkId in n.library && Proves(r, rule, n)
    requires rule.checkId in Indexed(n).results && Indexed(n).results[rule.checkId] == r
    requires Flaws(r, n.library[rule.checkId], Indexed(n).evidence) == []
    ensures match Judge(rule, Indexed(n))
      case Failure(UnaccountableException) => UnansweredFor(rule, n)
      case Failure(_) => false
      case Success(j) => JudgedAs(j, rule, n) && !UnansweredFor(rule, n)
  {
    hide IndexBy, Flaws, Admissible, HasFlaw, VerdictOn, Excuses, RejectedFor, Unnamed, Submitted;
    OneResult(rule, n);
    OneException(rule, n);
    var d := Indexed(n);
    if r.status != Passed && Some(rule.checkId) in d.exceptions {
      var x := d.exceptions[Some(rule.checkId)];
      assert x in n.exceptions && x.checkId == Some(rule.checkId);
      VerdictMeans(x, rule, n);
      match VerdictOn(x, n.gate, rule, n.subject) {
        case Accepted =>
          ExcuseIsNamed(x, rule, n);
          assert ExcusedBy(x, rule, n);
        case Rejected(why) => assert NotExcused(Some(why), rule, n);
        case Unaccountable =>
      }
    }
    forall x | x in n.exceptions && Unnamed(x, rule, n) ensures x.checkId == Some(rule.checkId) {
      UnnamedIsFor(x, rule, n);
    }
  }

  lemma ExcuseIsNamed(x: GateException, rule: CheckRule, n: Submission)
    requires Excuses(x, n.gate, rule, n.subject)
    ensures x.id.Some?
  {
    hide Blank;
  }

  /** What the evaluator makes of one check. */
  lemma JudgeMeans(rule: CheckRule, n: Submission)
    requires Submitted(n) && rule in n.gate.checkRules && rule.checkId in n.library
    ensures match Judge(rule, Indexed(n))
      case Failure(MismatchedResult) => Mismatched(rule, n)
      case Failure(UnaccountableException) => UnansweredFor(rule, n)
      case Failure(_) => false
      case Success(j) => JudgedAs(j, rule, n) && !Mismatched(rule, n) && !UnansweredFor(rule, n)
  {
    hide IndexBy, Flaws, Admissible, HasFlaw, VerdictOn, Excuses, RejectedFor, Unnamed, Submitted, NotExcused, FlawsOf,
      ExcusedBy;
    OneResult(rule, n);
    var d := Indexed(n);
    if rule.checkId in d.results {
      var r := d.results[rule.checkId];
      JudgeResult(rule, n, r);
      if Proves(r, rule, n) {
        JudgeProven(rule, n, r);
      }
    } else {
      JudgeWithout(rule, n);
    }
  }

  lemma UnnamedIsFor(x: GateException, rule: CheckRule, n: Submission)
    requires Unnamed(x, rule, n)
    ensures x.checkId == Some(rule.checkId)
  {
  }

  // ---------------------------------------------------------------- the whole evaluation

  /** A rule of the gate that the facts ask for. */
  ghost predicate AskedOf(rule: CheckRule, n: Submission) {
    rule in n.gate.checkRules && Asked(rule, n.facts)
  }

  lemma {:induction false} JudgedInOrder(rules: seq<CheckRule>, d: Dossier)
    requires forall r :: r in rules ==> r.checkId in d.library
    ensures JudgeAll(rules, d).Success? ==> forall i :: 0 <= i < |rules| ==>
      Judge(rules[i], d) == Success(JudgeAll(rules, d).value[i])
    ensures JudgeAll(rules, d).Failure? ==> exists r :: r in rules && Judge(r, d) == Failure(JudgeAll(rules, d).error)
  {
    hide Judge;
    if rules == [] {
    } else {
      var front := rules[..|rules| - 1];
      JudgedInOrder(front, d);
      assert rules == front + [rules[|rules| - 1]];
      if JudgeAll(front, d).Success? {
        forall i | 0 <= i < |front| && JudgeAll(rules, d).Success?
          ensures Judge(rules[i], d) == Success(JudgeAll(rules, d).value[i])
        {
          assert front[i] == rules[i];
        }
      }
    }
  }

  /** This is said of the check of some rule that is asked for. */
  ghost predicate SaidOf(id: string, j: Judgement, n: Submission) {
    exists rule :: AskedOf(rule, n) && rule.checkId == id && JudgedAs(j, rule, n)
  }

  /** The judgements of an evaluation are, one for each required check, what is said of that check. */
  lemma JudgementsAre(n: Submission)
    requires Evaluated(n)
    ensures var e := Evaluate(n).value;
      && |e.judgements| == |e.requiredChecks|
      && forall i :: 0 <= i < |e.judgements| ==> SaidOf(e.requiredChecks[i], e.judgements[i], n)
  {
    hide Evaluate, Submitted, JudgedAs, AskedOf, Report, Filter;
    var rules, js := JudgedRules(n);
    var e := Evaluate(n).value;
    forall i | 0 <= i < |rules| ensures SaidOf(rules[i].checkId, js[i], n) {
      assert AskedOf(rules[i], n) && JudgedAs(js[i], rules[i], n);
    }
  }

  /** The required rules of an evaluation with what is said of each. */
  lemma JudgedRules(n: Submission) returns (rules: seq<CheckRule>, js: seq<Judgement>)
    requires Evaluated(n)
    ensures Submitted(n) && |js| == |rules| && Evaluate(n).Success? && Evaluate(n).value.judgements == js
    ensures forall rule :: rule in rules <==> AskedOf(rule, n)
    ensures |Evaluate(n).value.requiredChecks| == |rules|
    ensures forall i :: 0 <= i < |rules| ==> Evaluate(n).value.requiredChecks[i] == rules[i].checkId
    ensures forall i :: 0 <= i < |rules| ==> AskedOf(rules[i], n) && JudgedAs(js[i], rules[i], n)
    ensures forall i :: 0 <= i < |rules| ==> rules[i].checkId in n.library
    ensures Evaluate(n).value == Report(rules, Filter(n.gate.checkRules, Advises()), js)
  {
    hide SelectedBy, Asked, Submitted, Evaluate, Judge, JudgeAll, ChecksWith, ExcusesIn, Indexed, JudgedAs, Mismatched,
      UnansweredFor, OutcomeOf;
    rules, js := EvaluationParts(n);
    forall rule ensures SelectedBy(rule, n.facts) <==> Asked(rule, n.facts) {
      AskedMeans(rule, n.facts);
    }
    forall i | 0 <= i < |rules| ensures AskedOf(rules[i], n) && JudgedAs(js[i], rules[i], n) {
      assert rules[i] in rules;
      JudgeMeans(rules[i], n);
    }
  }

  /** The result for the check proves nothing. */
  ghost predicate Disproved(r: CheckResult, rule: CheckRule, n: Submission) {
    r in n.results && r.checkId == rule.checkId && !Proves(r, rule, n)
  }

  lemma JudgedInvalid(j: Judgement, rule: CheckRule, n: Submission)
    requires Submitted(n) && JudgedAs(j, rule, n)
    ensures Invalidates(j) <==> exists r :: Disproved(r, rule, n)
  {
    hide Submitted, Admissible, FlawsOf, NotExcused, ExcusedBy;
    OneResult(rule, n);
    match j {
      case WrongSubject =>
        var r :| r in n.results && r.checkId == rule.checkId && !AboutSubject(r, rule, n);
        assert Disproved(r, rule, n);
      case DatedAfterGate =>
        var r :| AboutSubject(r, rule, n) && n.subject.evaluatedAt < r.evaluatedAt;
        assert Disproved(r, rule, n);
      case Inadmissible(flaws) =>
        var r :| Usable(r, rule, n) && !Admissible(r, n.library[rule.checkId], n.evidence);
        assert Disproved(r, rule, n);
      case _ =>
    }
  }

  /** What a judgement says decides whether there is a result, whether it is usable, and how it ends. */
  lemma JudgedMeans(j: Judgement, rule: CheckRule, n: Submission)
    requires Submitted(n) && JudgedAs(j, rule, n)
    ensures j.NoResult? <==> forall r :: r in n.results ==> r.checkId != rule.checkId
    ensures j.Passing? <==> exists r :: Proves(r, rule, n) && r.status == Passed
    ensures j.Excused? <==> exists r :: Proves(r, rule, n) && r.status != Passed && HasExcuse(rule, n)
    ensures j.Failing? <==> exists r :: Proves(r, rule, n) && r.status == Failed && !HasExcuse(rule, n)
    ensures forall id :: j == Excused(id) <==>
      exists r, x :: Proves(r, rule, n) && r.status != Passed && ExcusedBy(x, rule, n) && x.id == Some(id)
  {
    hide Submitted, JudgedAs, Proves, HasExcuse, ExcusedBy;
    JudgedResult(j, rule, n);
    JudgedFailure(j, rule, n);
    JudgedExcuse(j, rule, n);
  }

  lemma JudgedResult(j: Judgement, rule: CheckRule, n: Submission)
    requires Submitted(n) && JudgedAs(j, rule, n)
    ensures j.NoResult? <==> forall r :: r in n.results ==> r.checkId != rule.checkId
    ensures j.Passing? <==> exists r :: Proves(r, rule, n) && r.status == Passed
  {
    hide Submitted, Admissible, Excuses, FlawsOf, RejectedFor, ExcusedBy, NotExcused;
    OneResult(rule, n);
  }

  lemma JudgedFailure(j: Judgement, rule: CheckRule, n: Submission)
    requires Submitted(n) && JudgedAs(j, rule, n)
    ensures j.Excused? <==> exists r :: Proves(r, rule, n) && r.status != Passed && HasExcuse(rule, n)
    ensures j.Failing? <==> exists r :: Proves(r, rule, n) && r.status == Failed && !HasExcuse(rule, n)
  {
    hide Submitted, Admissible, Excuses, FlawsOf, RejectedFor, HasExcuse, ExcusedBy, NotExcused;
    OneResult(rule, n);
    ExcusedOrNot(rule, n);
  }

  lemma JudgedExcuse(j: Judgement, rule: CheckRule, n: Submission)
    requires Submitted(n) && JudgedAs(j, rule, n)
    ensures forall id :: j == Excused(id) <==>
      exists r, x :: Proves(r, rule, n) && r.status != Passed && ExcusedBy(x, rule, n) && x.id == Some(id)
  {
    hide Submitted, Admissible, Excuses, FlawsOf, RejectedFor, HasExcuse, ExcusedBy, NotExcused;
    OneResult(rule, n);
    ExcusedOrNot(rule, n);
    OneExcuse(rule, n);
  }

  /** An exception either excuses the check or is rejected, and there is at most one. */
  lemma ExcusedOrNot(rule: CheckRule, n: Submission)
    requires Submitted(n)
    ensures HasExcuse(rule, n) <==> exists x :: ExcusedBy(x, rule, n)
    ensures forall why :: NotExcused(why, rule, n) ==> !HasExcuse(rule, n)
  {
    hide Submitted, Excuses, RejectedFor;
    OneException(rule, n);
    forall x | x in n.exceptions && Excuses(x, n.gate, rule, n.subject) ensures x.checkId == Some(rule.checkId) {
      ExcuseIsFor(x, rule, n);
    }
    if x :| x in n.exceptions && Excuses(x, n.gate, rule, n.subject) {
      assert ExcusedBy(x, rule, n);
    }
    forall why | NotExcused(why, rule, n) ensures !HasExcuse(rule, n) {
      if x :| x in n.exceptions && Excuses(x, n.gate, rule, n.subject) {
        var y :| y in n.exceptions && y.checkId == Some(rule.checkId) && RejectedFor(y, why.value, rule, n);
        RejectedIsNoExcuse(y, why.value, rule, n);
      }
    }
  }

  lemma OneExcuse(rule: CheckRule, n: Submission)
    requires Submitted(n)
    ensures forall x, y :: ExcusedBy(x, rule, n) && ExcusedBy(y, rule, n) ==> x == y
  {
    hide Submitted, Excuses;
    OneException(rule, n);
    forall x | ExcusedBy(x, rule, n) ensures x.checkId == Some(rule.checkId) {
      ExcuseIsFor(x, rule, n);
    }
  }

  lemma ExcuseIsFor(x: GateException, rule: CheckRule, n: Submission)
    requires Excuses(x, n.gate, rule, n.subject)
    ensures x.checkId == Some(rule.checkId)
  {
    hide Blank;
  }

  lemma RejectedIsNoExcuse(x: GateException, why: Rejection, rule: CheckRule, n: Submission)
    requires RejectedFor(x, why, rule, n)
    ensures !Excuses(x, n.gate, rule, n.subject)
  {
    hide Blank;
  }

  lemma OpenIsNotClosed(rule: CheckRule, n: Submission, j: Judgement)
    requires Submitted(n) && JudgedAs(j, rule, n)
    ensures j.NoResult? || Invalidates(j) || j.Failing? || j.Unproven? ==>
      !exists r :: Proves(r, rule, n) && (r.status == Passed || HasExcuse(rule, n))
  {
    hide Submitted, Admissible, Excuses, FlawsOf, RejectedFor, HasExcuse, JudgedAs;
    JudgedMeans(j, rule, n);
    JudgedInvalid(j, rule, n);
    UnprovenIsNotExcused(j, rule, n);
    if r :| Proves(r, rule, n) {
      assert r in n.results && r.checkId == rule.checkId;
    }
  }

  lemma UnprovenIsNotExcused(j: Judgement, rule: CheckRule, n: Submission)
    requires Submitted(n) && JudgedAs(j, rule, n)
    ensures j.Unproven? ==> !HasExcuse(rule, n) && exists r :: Proves(r, rule, n) && r.status == j.status
    ensures j.Unproven? ==> forall r :: Proves(r, rule, n) ==> r.status != Passed
    ensures forall r, r' :: Proves(r, rule, n) && Proves(r', rule, n) ==> r == r'
    ensures forall r, r' :: Proves(r, rule, n) && r' in n.results && r'.checkId == rule.checkId ==> r == r'
  {
    hide Submitted, Admissible, Excuses, FlawsOf, RejectedFor;
    OneResult(rule, n);
    OneException(rule, n);
    forall x | x in n.exceptions && Excuses(x, n.gate, rule, n.subject) ensures x.checkId == Some(rule.checkId) {
      ExcuseIsFor(x, rule, n);
    }
    if why, x :| x in n.exceptions && x.checkId == Some(rule.checkId) && RejectedFor(x, why, rule, n) {
      RejectedIsNoExcuse(x, why, rule, n);
    }
  }

  /** The check is proved to be in order: by itself, or under an exception. */
  ghost predicate Closed(rule: CheckRule, n: Submission) {
    exists r :: Proves(r, rule, n) && (r.status == Passed || HasExcuse(rule, n))
  }

  ghost predicate Condemned(rule: CheckRule, n: Submission) {
    exists r :: Proves(r, rule, n) && r.status == Failed && !HasExcuse(rule, n)
  }

  ghost predicate PassedItself(rule: CheckRule, n: Submission) {
    exists r :: Proves(r, rule, n) && r.status == Passed
  }

  lemma JudgedCloses(j: Judgement, rule: CheckRule, n: Submission)
    requires Submitted(n) && JudgedAs(j, rule, n)
    ensures Closed(rule, n) <==> !j.Failing? && !LeavesOpen(j)
    ensures Condemned(rule, n) <==> j.Failing?
    ensures PassedItself(rule, n) <==> j.Passing?
  {
    hide Submitted, JudgedAs, Proves, HasExcuse;
    JudgedMeans(j, rule, n);
    OpenIsNotClosed(rule, n, j);
    if j.Passing? || j.Excused? {
      assert Closed(rule, n);
    }
  }

  lemma OutcomeReads(js: seq<Judgement>)
    ensures match OutcomeOf(js)
      case GateFailed => exists i :: 0 <= i < |js| && js[i].Failing?
      case GateInconclusive =>
        (forall i :: 0 <= i < |js| ==> !js[i].Failing?) && exists i :: 0 <= i < |js| && LeavesOpen(js[i])
      case GatePassedWithException =>
        && (forall i :: 0 <= i < |js| ==> !js[i].Failing? && !LeavesOpen(js[i]))
        && exists i :: 0 <= i < |js| && js[i].Excused?
      case GatePassed => forall i :: 0 <= i < |js| ==> js[i].Passing?
  {
    forall i | 0 <= i < |js| ensures js[i] in js {
    }
  }

  /** The outcome is failed when some required check is condemned, else inconclusive when some is not closed, else
      passed with exception when some did not pass by itself, else passed; promotable means that all are closed. */
  lemma OutcomeIs(n: Submission)
    requires Evaluated(n)
    ensures var e := Evaluate(n).value;
      && (e.outcome == GateFailed <==> exists rule :: AskedOf(rule, n) && Condemned(rule, n))
      && (e.outcome == GateInconclusive <==>
            (forall rule :: AskedOf(rule, n) ==> !Condemned(rule, n))
            && exists rule :: AskedOf(rule, n) && !Closed(rule, n))
      && (e.outcome == GatePassedWithException <==>
            (forall rule :: AskedOf(rule, n) ==> Closed(rule, n))
            && exists rule :: AskedOf(rule, n) && !PassedItself(rule, n))
      && (e.outcome == GatePassed <==> forall rule :: AskedOf(rule, n) ==> PassedItself(rule, n))
      && (e.promotable <==> forall rule :: AskedOf(rule, n) ==> Closed(rule, n))
  {
    hide Evaluate, Submitted, JudgedAs, Closed, Condemned, PassedItself, AskedOf, LeavesOpen, OutcomeOf, ChecksWith,
      ExcusesIn, Filter, Map;
    var rules, js := JudgedRules(n);
    forall i | 0 <= i < |rules| ensures
      && (Closed(rules[i], n) <==> !js[i].Failing? && !LeavesOpen(js[i]))
      && (Condemned(rules[i], n) <==> js[i].Failing?) && (PassedItself(rules[i], n) <==> js[i].Passing?)
    {
      JudgedCloses(js[i], rules[i], n);
    }
    forall rule | AskedOf(rule, n) ensures exists i :: 0 <= i < |rules| && rules[i] == rule {
      assert rule in rules;
    }
    forall i | 0 <= i < |rules| ensures js[i].Passing? ==> !js[i].Failing? && !LeavesOpen(js[i]) {
      PassingIsClosed(js[i]);
    }
    OutcomeReads(js);
  }

  lemma PassingIsClosed(j: Judgement)
    ensures j.Passing? || j.Excused? <==> !j.Failing? && !LeavesOpen(j)
  {
  }

  // ---------------------------------------------------------------- what is listed

  ghost predicate InListOrder(ids: seq<string>, all: seq<string>) {
    forall k, m :: 0 <= k < m < |ids| ==> Precedes(ids[k], ids[m], all)
  }

  ghost predicate Precedes(x: string, y: string, all: seq<string>) {
    exists a, b :: 0 <= a < b < |all| && all[a] == x && all[b] == y
  }

  lemma {:induction false} ChecksWithAre(rules: seq<CheckRule>, js: seq<Judgement>, p: Judgement -> bool)
    requires |rules| == |js|
    ensures forall id :: id in ChecksWith(rules, js, p) <==>
      exists i :: 0 <= i < |rules| && rules[i].checkId == id && p(js[i])
  {
    if rules == [] {
    } else {
      var n := |rules| - 1;
      ChecksWithAre(rules[..n], js[..n], p);
      forall id ensures id in ChecksWith(rules, js, p) <==>
        exists i :: 0 <= i < |rules| && rules[i].checkId == id && p(js[i])
      {
        if i :| 0 <= i < |rules| && rules[i].checkId == id && p(js[i]) {
          if i < n {
            assert rules[..n][i].checkId == id && p(js[..n][i]);
          }
        }
      }
    }
  }

  lemma {:induction false} ChecksWithInOrder(rules: seq<CheckRule>, js: seq<Judgement>, p: Judgement -> bool)
    requires |rules| == |js|
    ensures InListOrder(ChecksWith(rules, js, p), Map(RuleCheck(), rules))
  {
    if rules == [] {
    } else {
      var n := |rules| - 1;
      var front, all := ChecksWith(rules[..n], js[..n], p), ChecksWith(rules, js, p);
      var ids := Map(RuleCheck(), rules);
      ChecksWithInOrder(rules[..n], js[..n], p);
      ChecksWithAre(rules[..n], js[..n], p);
      assert ids[..n] == Map(RuleCheck(), rules[..n]);
      forall k, m | 0 <= k < m < |all| ensures Precedes(all[k], all[m], ids) {
        if m < |front| {
          assert Precedes(front[k], front[m], ids[..n]);
        } else {
          assert front[k] in front;
          var a :| 0 <= a < n && rules[..n][a].checkId == front[k] && p(js[..n][a]);
          assert ids[a] == all[k] && ids[n] == all[m];
        }
      }
    }
  }

  lemma {:induction false} ExcusesAre(js: seq<Judgement>)
    ensures forall id :: id in ExcusesIn(js) <==> exists i :: 0 <= i < |js| && js[i] == Excused(id)
  {
    if js == [] {
    } else {
      var n := |js| - 1;
      ExcusesAre(js[..n]);
      forall id ensures id in ExcusesIn(js) <==> exists i :: 0 <= i < |js| && js[i] == Excused(id) {
        if i :| 0 <= i < |js| && js[i] == Excused(id) {
          if i < n {
            assert js[..n][i] == Excused(id);
          }
        }
      }
    }
  }

  /** The missing checks are, in the order of the required ones, those without a result; the invalid ones those whose
      result proves nothing; the accepted exceptions those that excuse a result which did not pass. */
  lemma ListedChecksAre(n: Submission)
    requires Evaluated(n)
    ensures var e := Evaluate(n).value;
      && InListOrder(e.missingChecks, e.requiredChecks) && InListOrder(e.invalidChecks, e.requiredChecks)
      && (forall id :: id in e.missingChecks <==>
            exists rule :: AskedOf(rule, n) && rule.checkId == id && forall r :: r in n.results ==> r.checkId != id)
      && (forall id :: id in e.invalidChecks <==>
            exists rule, r :: AskedOf(rule, n) && rule.checkId == id && Disproved(r, rule, n))
      && (forall id :: id in e.acceptedExceptions <==>
            exists rule, r, x :: AskedOf(rule, n) && Proves(r, rule, n) && r.status != Passed
              && ExcusedBy(x, rule, n) && x.id == Some(id))
  {
    hide Evaluate, Submitted, JudgedAs, Proves, AskedOf, Invalidates, OutcomeOf, ChecksWith, ExcusesIn, Filter, Map,
      ExcusedBy, HasExcuse, InListOrder, Disproved;
    var rules, js := JudgedRules(n);
    ChecksWithAre(rules, js, IsMissing());
    ChecksWithAre(rules, js, IsInvalid());
    ChecksWithInOrder(rules, js, IsMissing());
    ChecksWithInOrder(rules, js, IsInvalid());
    ExcusesAre(js);
    forall i | 0 <= i < |rules| ensures
      && (js[i].NoResult? <==> forall r :: r in n.results ==> r.checkId != rules[i].checkId)
      && (Invalidates(js[i]) <==> exists r :: Disproved(r, rules[i], n))
      && forall id :: js[i] == Excused(id) <==>
           exists r, x :: Proves(r, rules[i], n) && r.status != Passed && ExcusedBy(x, rules[i], n) && x.id == Some(id)
    {
      JudgedMeans(js[i], rules[i], n);
      JudgedInvalid(js[i], rules[i], n);
    }
    forall rule | AskedOf(rule, n) ensures exists i :: 0 <= i < |rules| && rules[i] == rule {
      assert rule in rules;
    }
  }

  // ---------------------------------------------------------------- which evaluations are refused

  ghost predicate SoundRule(rule: CheckRule, library: map<string, CheckContract>) {
    && rule.checkId in library && |library[rule.checkId].acceptedKinds| > 0
    && library[rule.checkId].minimumEvidence > 0 && library[rule.checkId].maxAgeSeconds >= 0
    && (if rule.requirement == Conditional then |rule.whenAll| > 0 else |rule.whenAll| == 0)
    && (forall k :: 0 <= k < |rule.whenAll| ==>
          match rule.whenAll[k] case In(_, values) => |values| > 0 case Equals(_, _) => true)
    && (rule.hardControl ==> !rule.waivable)
  }

  ghost predicate SoundGate(g: GateContract, library: map<string, CheckContract>) {
    && |g.checkRules| > 0 && (forall k :: 0 <= k < |g.checkRules| ==> SoundRule(g.checkRules[k], library))
    && forall i, j :: 0 <= i < j < |g.checkRules| ==> g.checkRules[i].checkId != g.checkRules[j].checkId
  }

  ghost predicate SoundRecords(evidence: seq<EvidenceRecord>) {
    && (forall k :: 0 <= k < |evidence| ==>
          && HexDigest(evidence[k].sha256) && |evidence[k].assertions| > 0
          && forall i :: 0 <= i < |evidence[k].assertions| ==> !Blank(evidence[k].assertions[i]))
    && forall i, j :: 0 <= i < j < |evidence| ==> evidence[i].id != evidence[j].id
  }

  lemma SoundGateIff(g: GateContract, library: map<string, CheckContract>)
    ensures SoundGate(g, library) <==> ValidGateContract(g, library)
  {
    forall rule | rule in g.checkRules ensures SoundRule(rule, library) <==> ValidRule(rule, library) {
    }
    hide SoundRule, ValidRule;
    assert forall k :: 0 <= k < |g.checkRules| ==> g.checkRules[k] in g.checkRules;
  }

  lemma SoundRecordsIff(evidence: seq<EvidenceRecord>)
    ensures SoundRecords(evidence)
      <==> (forall e :: e in evidence ==> ValidEvidence(e)) && NoDuplicates(Map(EvidenceId(), evidence))
  {
    hide Blank, HexDigest, IsDigest;
    forall k | 0 <= k < |evidence|
      ensures evidence[k] in evidence && (IsDigest(evidence[k].sha256) <==> HexDigest(evidence[k].sha256))
    {
      DigestMeans(evidence[k].sha256);
    }
  }

  /** The gate is looked at before the evidence, the evidence before the results, the results before the exceptions; a
      check made with another contract, or an exception nobody answers for, is refused when its rule is asked for. */
  lemma RefusedEvaluationIff(n: Submission)
    ensures var records, results := SoundRecords(n.evidence),
          forall i, j :: 0 <= i < j < |n.results| ==> n.results[i].checkId != n.results[j].checkId;
      var excuses := forall i, j :: 0 <= i < j < |n.exceptions| ==> n.exceptions[i].checkId != n.exceptions[j].checkId;
      var sound := SoundGate(n.gate, n.library) && records && results && excuses;
      match Evaluate(n)
      case Failure(InvalidGate) => !SoundGate(n.gate, n.library)
      case Failure(InvalidEvidence) => SoundGate(n.gate, n.library) && !records
      case Failure(DuplicateResult) => SoundGate(n.gate, n.library) && records && !results
      case Failure(DuplicateException) => SoundGate(n.gate, n.library) && records && results && !excuses
      case Failure(MismatchedResult) => sound && exists rule :: AskedOf(rule, n) && Mismatched(rule, n)
      case Failure(UnaccountableException) => sound && exists rule :: AskedOf(rule, n) && UnansweredFor(rule, n)
      case Success(_) =>
        sound && forall rule :: AskedOf(rule, n) ==> !Mismatched(rule, n) && !UnansweredFor(rule, n)
  {
    SoundGateIff(n.gate, n.library);
    SoundRecordsIff(n.evidence);
    var ids, xids := Map(ResultCheck(), n.results), Map(ExceptionCheck(), n.exceptions);
    hide SoundGate, SoundRecords, ValidGateContract, ValidEvidence, AskedOf, Mismatched, UnansweredFor, Report,
      JudgeAll;
    if CheckSubmission(n).None? {
      var rules := Filter(n.gate.checkRules, Selects(n.facts));
      SelectedAreAsked(n);
      JudgedOrRefused(n, rules);
    }
  }

  lemma SelectedAreAsked(n: Submission)
    requires Submitted(n)
    ensures forall rule :: rule in Filter(n.gate.checkRules, Selects(n.facts)) <==> AskedOf(rule, n)
    ensures forall rule :: rule in n.gate.checkRules ==> rule.checkId in n.library
  {
    hide SelectedBy, Asked, ValidEvidence;
    forall rule ensures SelectedBy(rule, n.facts) <==> Asked(rule, n.facts) {
      AskedMeans(rule, n.facts);
    }
  }

  lemma JudgedOrRefused(n: Submission, rules: seq<CheckRule>)
    requires Submitted(n) && (forall rule :: rule in rules ==> rule in n.gate.checkRules && rule.checkId in n.library)
    ensures match JudgeAll(rules, Indexed(n))
      case Failure(MismatchedResult) => exists rule :: rule in rules && Mismatched(rule, n)
      case Failure(UnaccountableException) => exists rule :: rule in rules && UnansweredFor(rule, n)
      case Failure(_) => false
      case Success(_) => forall rule :: rule in rules ==> !Mismatched(rule, n) && !UnansweredFor(rule, n)
  {
    hide Submitted, JudgedAs, Mismatched, UnansweredFor, Judge, JudgeAll, IndexBy;
    JudgedInOrder(rules, Indexed(n));
    forall rule | rule in rules ensures
      match Judge(rule, Indexed(n))
      case Failure(MismatchedResult) => Mismatched(rule, n)
      case Failure(UnaccountableException) => UnansweredFor(rule, n)
      case Failure(_) => false
      case Success(_) => !Mismatched(rule, n) && !UnansweredFor(rule, n)
    {
      JudgeMeans(rule, n);
    }
    if JudgeAll(rules, Indexed(n)).Success? {
      forall rule | rule in rules ensures Judge(rule, Indexed(n)).Success? {
        var i :| 0 <= i < |rules| && rules[i] == rule;
      }
    }
  }
}
