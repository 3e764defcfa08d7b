/** The gate evaluator as it runs: dictionaries filled record by record, rules sorted into lists, and
    one pass over the required checks that fills the lists the outcome is read from. */
module EvidenceGateEngine {
  import opened Collections
  import opened Json
  import opened EvidenceGates

  method CollectFlaws(r: CheckResult, c: CheckContract, evidence: map<string, EvidenceRecord>)
    returns (flaws: seq<Flaw>)
    ensures flaws == Flaws(r, c, evidence)
  {
    hide RecordFlaws, NoDuplicates, CitedFlaws;
    flaws := [];
    CitedNone(r, c, evidence);
    if |r.evidenceIds| < c.minimumEvidence {
      flaws := flaws + [TooFew];
    }
    if !NoDuplicates(r.evidenceIds) {
      flaws := flaws + [DuplicateIds];
    }
    if c.requiresIndependentEvaluator && r.evaluatorGroup == r.subjectGroup {
      flaws := flaws + [NotIndependent];
    }
    assert flaws == GeneralFlaws(r, c);
    for i := 0 to |r.evidenceIds|
      invariant flaws == GeneralFlaws(r, c) + CitedFlaws(r.evidenceIds[..i], r, c, evidence)
    {
      CitedStep(r.evidenceIds, i, r, c, evidence);
      AppendAssociates(GeneralFlaws(r, c), CitedFlaws(r.evidenceIds[..i], r, c, evidence),
                       RecordFlaws(r.evidenceIds[i], r, c, evidence));
      flaws := flaws + RecordFlaws(r.evidenceIds[i], r, c, evidence);
    }
    assert r.evidenceIds[..|r.evidenceIds|] == r.evidenceIds;
  }

  lemma CitedNone(r: CheckResult, c: CheckContract, evidence: map<string, EvidenceRecord>)
    ensures CitedFlaws(r.evidenceIds[..0], r, c, evidence) == []
  {
  }

  lemma CitedStep(ids: seq<string>, i: nat, r: CheckResult, c: CheckContract, evidence: map<string, EvidenceRecord>)
    requires i < |ids|
    ensures CitedFlaws(ids[..i + 1], r, c, evidence)
         == CitedFlaws(ids[..i], r, c, evidence) + RecordFlaws(ids[i], r, c, evidence)
  {
    hide RecordFlaws;
    assert ids[..i + 1][..i] == ids[..i];
  }

  /** Fills a dictionary from a list, refusing a repeated key. */
  method Index<K, V>(xs: seq<V>, key: V -> K) returns (byKey: Option<map<K, V>>)
    ensures byKey == if NoDuplicates(Map(key, xs)) then Some(IndexBy(xs, key)) else None
  {
    var d: map<K, V> := map[];
    assert xs[..0] == [];
    for i := 0 to |xs|
      invariant d == IndexBy(xs[..i], key) && NoDuplicates(Map(key, xs[..i]))
    {
      assert xs[..i + 1] == xs[..i] + [xs[i]];
      IndexStep(xs[..i], xs[i], key);
      if key(xs[i]) in d {
        assert Map(key, xs)[..i + 1] == Map(key, xs[..i + 1]);
        DuplicatesStay(Map(key, xs), i + 1);
        return None;
      }
      d := d[key(xs[i]) := xs[i]];
    }
    assert xs[..|xs|] == xs;
    byKey := Some(d);
  }

  method SortRules(rules: seq<CheckRule>, facts: map<string, Json>)
    returns (required: seq<CheckRule>, advisory: seq<CheckRule>)
    ensures required == Filter(rules, Selects(facts)) && advisory == Filter(rules, Advises())
  {
    hide SelectedBy, Filter;
    required, advisory := [], [];
    NothingSorted(facts);
    for i := 0 to |rules|
      invariant required == Filter(rules[..i], Selects(facts)) && advisory == Filter(rules[..i], Advises())
    {
      var rule := rules[i];
      FilterStep(rules, i, Selects(facts));
      FilterStep(rules, i, Advises());
      AdvisoryIsNotSelected(rule, facts);
      if SelectedBy(rule, facts) {
        required := required + [rule];
      } else if rule.requirement == Advisory {
        advisory := advisory + [rule];
      }
    }
    assert rules[..|rules|] == rules;
  }

  lemma NothingSorted(facts: map<string, Json>)
    ensures Filter([], Selects(facts)) == [] && Filter([], Advises()) == []
  {
  }

  lemma AdvisoryIsNotSelected(rule: CheckRule, facts: map<string, Json>)
    ensures rule.requirement == Advisory ==> !SelectedBy(rule, facts)
  {
  }

  /** Judges one required check from its dictionaries. */
  method JudgeCheck(rule: CheckRule, d: Dossier) returns (j: Result<Judgement, GateError>)
    requires rule.checkId in d.library
    ensures j == Judge(rule, d)
  {
    hide Flaws;
    if rule.checkId !in d.results {
      return Success(NoResult);
    }
    var r, c := d.results[rule.checkId], d.library[rule.checkId];
    if r.subjectId != d.subject.id || r.subjectRevision != d.subject.revision {
      return Success(WrongSubject);
    }
    if r.evaluatedAt > d.subject.evaluatedAt {
      return Success(DatedAfterGate);
    }
    if !Assessable(r, c) {
      return Failure(MismatchedResult);
    }
    var flaws := CollectFlaws(r, c, d.evidence);
    if flaws != [] {
      return Success(Inadmissible(flaws));
    }
    if r.status == Passed {
      return Success(Passing);
    }
    var rejected: Option<Rejection> := None;
    if Some(rule.checkId) in d.exceptions {
      var x := d.exceptions[Some(rule.checkId)];
      match VerdictOn(x, d.gate, rule, d.subject) {
        case Accepted => return Success(Excused(x.id.value));
        case Rejected(why) => rejected := Some(why);
        case Unaccountable => return Failure(UnaccountableException);
      }
    }
    j := Success(Unexcused(r.status, rejected));
  }

  /** The lists the evaluator keeps, read off the judgements so far. */
  ghost predicate Tallied(
    rules: seq<CheckRule>, js: seq<Judgement>, missing: seq<string>, invalid: seq<string>,
    accepted: seq<string>, failures: nat, unresolved: nat)
  {
    && |rules| == |js|
    && missing == ChecksWith(rules, js, IsMissing()) && invalid == ChecksWith(rules, js, IsInvalid())
    && accepted == ExcusesIn(js)
    && (failures > 0 <==> exists j :: j in js && j.Failing?)
    && (unresolved > 0 <==> exists j :: j in js && LeavesOpen(j))
    && (accepted != [] <==> exists j :: j in js && j.Excused?)
  }

  lemma TallyStep(
    rules: seq<CheckRule>, js: seq<Judgement>, missing: seq<string>, invalid: seq<string>,
    accepted: seq<string>, failures: nat, unresolved: nat, rule: CheckRule, j: Judgement)
    requires Tallied(rules, js, missing, invalid, accepted, failures, unresolved)
    ensures Tallied(rules + [rule], js + [j],
      if j.NoResult? then missing + [rule.checkId] else missing,
      if Invalidates(j) then invalid + [rule.checkId] else invalid,
      if j.Excused? then accepted + [j.exceptionId] else accepted,
      if j.Failing? then failures + 1 else failures,
      if LeavesOpen(j) then unresolved + 1 else unresolved)
  {
    var rules', js' := rules + [rule], js + [j];
    assert rules'[..|rules|] == rules && js'[..|js|] == js;
    hide LeavesOpen, Invalidates;
    assert forall x :: x in js' <==> x in js || x == j;
    assert js'[|js|] == j && rules'[|rules|] == rule;
  }

  /** One pass over the required checks. */
  method JudgeRequired(rules: seq<CheckRule>, d: Dossier)
    returns (error: Option<GateError>, js: seq<Judgement>, missing: seq<string>, invalid: seq<string>,
             accepted: seq<string>, failures: nat, unresolved: nat)
    requires forall r :: r in rules ==> r.checkId in d.library
    ensures JudgeAll(rules, d) == if error.Some? then Failure(error.value) else Success(js)
    ensures error.None? ==> Tallied(rules, js, missing, invalid, accepted, failures, unresolved)
  {
    hide Judge, LeavesOpen, Invalidates, Tallied;
    js, missing, invalid, accepted, failures, unresolved := [], [], [], [], 0, 0;
    NothingTallied();
    assert rules[..0] == [];
    for i := 0 to |rules|
      invariant JudgeAll(rules[..i], d) == Success(js)
      invariant Tallied(rules[..i], js, missing, invalid, accepted, failures, unresolved)
    {
      var rule := rules[i];
      assert rules[..i + 1] == rules[..i] + [rule] && rules[..i + 1][..i] == rules[..i];
      var j := JudgeCheck(rule, d);
      if j.Failure? {
        RefusedStays(rules, i + 1, d, j.error);
        return Some(j.error), js, missing, invalid, accepted, failures, unresolved;
      }
      TallyStep(rules[..i], js, missing, invalid, accepted, failures, unresolved, rule, j.value);
      js := js + [j.value];
      missing := if j.value.NoResult? then missing + [rule.checkId] else missing;
      invalid := if Invalidates(j.value) then invalid + [rule.checkId] else invalid;
      accepted := if j.value.Excused? then accepted + [j.value.exceptionId] else accepted;
      failures := if j.value.Failing? then failures + 1 else failures;
      unresolved := if LeavesOpen(j.value) then unresolved + 1 else unresolved;
    }
    assert rules[..|rules|] == rules;
    error := None;
  }

  lemma NothingTallied()
    ensures Tallied([], [], [], [], [], 0, 0)
  {
  }

  lemma {:induction false} RefusedStays(rules: seq<CheckRule>, n: nat, d: Dossier, error: GateError)
    requires n <= |rules| && forall r :: r in rules ==> r.checkId in d.library
    requires JudgeAll(rules[..n], d) == Failure(error)
    ensures JudgeAll(rules, d) == Failure(error)
    decreases |rules|
  {
    hide Judge;
    if n == |rules| {
      assert rules[..n] == rules;
    } else {
      assert rules[..|rules| - 1][..n] == rules[..n];
      RefusedStays(rules[..|rules| - 1], n, d, error);
    }
  }

  /** Checks the inputs and fills the dictionaries. */
  method PrepareDossier(n: Submission) returns (r: Result<Dossier, GateError>)
    ensures r == if CheckSubmission(n).Some? then Failure(CheckSubmission(n).value) else Success(Indexed(n))
  {
    hide ValidEvidence, ValidGateContract, IndexBy, NoDuplicates, Map;
    if !ValidGateContract(n.gate, n.library) {
      return Failure(InvalidGate);
    }
    if exists e :: e in n.evidence && !ValidEvidence(e) {
      return Failure(InvalidEvidence);
    }
    var evidence := Index(n.evidence, EvidenceId());
    if evidence.None? {
      return Failure(InvalidEvidence);
    }
    var results := Index(n.results, ResultCheck());
    if results.None? {
      return Failure(DuplicateResult);
    }
    var exceptions := Index(n.exceptions, ExceptionCheck());
    if exceptions.None? {
      return Failure(DuplicateException);
    }
    r := Success(Dossier(n.gate, n.library, results.value, evidence.value, exceptions.value, n.subject));
  }

  /** The whole evaluation: the report the specification gives, or the same error. */
  method EvaluateGate(n: Submission) returns (r: Result<GateEvaluation, GateError>)
    ensures r == Evaluate(n)
  {
    hide CheckSubmission, JudgeAll, IndexBy, ChecksWith, ExcusesIn, LeavesOpen, Promotable, Filter, Map;
    var prepared := PrepareDossier(n);
    if prepared.Failure? {
      return Failure(prepared.error);
    }
    var d := prepared.value;
    var rules, advisory := SortRules(n.gate.checkRules, n.facts);
    SubmittedContracts(n);
    var error, js, missing, invalid, accepted, failures, unresolved := JudgeRequired(rules, d);
    if error.Some? {
      return Failure(error.value);
    }
    var outcome := if failures > 0 then GateFailed
                   else if unresolved > 0 then GateInconclusive
                   else if accepted != [] then GatePassedWithException
                   else GatePassed;
    r := Success(GateEvaluation(outcome, Promotable(outcome), Map(RuleCheck(), rules), Map(RuleCheck(), advisory),
                                missing, invalid, accepted, js));
  }

  lemma SubmittedContracts(n: Submission)
    requires CheckSubmission(n).None?
    ensures forall r :: r in Filter(n.gate.checkRules, Selects(n.facts)) ==> r.checkId in n.library
  {
    hide ValidEvidence, ValidGateContract, NoDuplicates, Map;
    RulesHaveContracts(n);
  }

  lemma RulesHaveContracts(n: Submission)
    requires ValidGateContract(n.gate, n.library)
    ensures forall r :: r in Filter(n.gate.checkRules, Selects(n.facts)) ==> r.checkId in n.library
  {
  }
}
