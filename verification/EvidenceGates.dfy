/** Evidence admissibility and gate evaluation. */
module EvidenceGates {
  import opened Collections
  import opened Text
  import opened Json
  import opened EventLog

  // ---------------------------------------------------------------- contracts

  datatype EvidenceKind =
    Artifact | TestResult | BuildResult | ReviewDisposition | ScanResult | Observation | Metric
    | DecisionRecord | ProvenanceManifest

  datatype CheckContract = CheckContract(
    id: string, version: string, acceptedKinds: seq<EvidenceKind>, minimumEvidence: int,
    maxAgeSeconds: int, requiresIndependentEvaluator: bool)

  datatype Predicate = Equals(fact: string, value: Json) | In(fact: string, values: seq<Json>)

  datatype Requirement = Required | Conditional | Advisory

  datatype CheckRule = CheckRule(
    checkId: string, requirement: Requirement, whenAll: seq<Predicate>, waivable: bool, hardControl: bool)

  datatype GateContract = GateContract(
    id: string, version: string, acceptedExceptionAuthorities: seq<string>, checkRules: seq<CheckRule>)

  predicate ValidCheckContract(c: CheckContract) {
    c.acceptedKinds != [] && c.minimumEvidence >= 1 && c.maxAgeSeconds >= 0
  }

  function RuleCheck(): CheckRule -> string {
    (r: CheckRule) => r.checkId
  }

  predicate ValidRule(r: CheckRule, library: map<string, CheckContract>) {
    && r.checkId in library && ValidCheckContract(library[r.checkId])
    && (r.requirement == Conditional <==> r.whenAll != [])
    && (forall p :: p in r.whenAll && p.In? ==> p.values != [])
    && !(r.hardControl && r.waivable)
  }

  predicate ValidGateContract(g: GateContract, library: map<string, CheckContract>) {
    && g.checkRules != []
    && (forall r :: r in g.checkRules ==> ValidRule(r, library))
    && NoDuplicates(Map(RuleCheck(), g.checkRules))
  }

  // ---------------------------------------------------------------- records

  datatype EvidenceRecord = EvidenceRecord(
    id: string, kind: EvidenceKind, subjectId: string, subjectRevision: string, collectedAt: int,
    sha256: string, assertions: seq<string>)

  datatype CheckStatus = Passed | Failed | Inconclusive | Error

  datatype CheckResult = CheckResult(
    checkId: string, checkVersion: string, status: CheckStatus, subjectId: string,
    subjectRevision: string, evaluatedAt: int, evaluatorGroup: string, subjectGroup: string,
    evidenceIds: seq<string>)

  /** Every field of an exception may be missing. */
  datatype GateException = GateException(
    id: Option<string>, gateId: Option<string>, checkId: Option<string>, subjectId: Option<string>,
    subjectRevision: Option<string>, authority: Option<string>, grantedBy: Option<string>,
    rationale: Option<string>, expiresAt: Option<int>)

  predicate ValidEvidence(e: EvidenceRecord) {
    IsDigest(e.sha256) && e.assertions != [] && forall a :: a in e.assertions ==> !Blank(a)
  }

  function EvidenceId(): EvidenceRecord -> string {
    (e: EvidenceRecord) => e.id
  }

  function ResultCheck(): CheckResult -> string {
    (r: CheckResult) => r.checkId
  }

  function ExceptionCheck(): GateException -> Option<string> {
    (x: GateException) => x.checkId
  }

  // ---------------------------------------------------------------- conditions

  predicate Matches(p: Predicate, facts: map<string, Json>) {
    p.fact in facts &&
    match p
    case Equals(fact, value) => facts[fact] == value
    case In(fact, values) => facts[fact] in values
  }

  predicate SelectedBy(r: CheckRule, facts: map<string, Json>) {
    r.requirement == Required
    || (r.requirement == Conditional && forall p :: p in r.whenAll ==> Matches(p, facts))
  }

  function Selects(facts: map<string, Json>): CheckRule -> bool {
    (r: CheckRule) => SelectedBy(r, facts)
  }

  function Advises(): CheckRule -> bool {
    (r: CheckRule) => r.requirement == Advisory
  }

  // ---------------------------------------------------------------- admissibility

  datatype Flaw =
    TooFew | DuplicateIds | NotIndependent | MissingRecord(id: string) | InvalidRecord(id: string)
    | UnacceptedKind(id: string) | OtherSubject(id: string) | OtherRevision(id: string)
    | FutureDated(id: string) | Stale(id: string)

  function AgeFlaw(id: string, collectedAt: int, r: CheckResult, c: CheckContract): seq<Flaw> {
    if r.evaluatedAt < collectedAt then [FutureDated(id)]
    else if r.evaluatedAt - collectedAt > c.maxAgeSeconds * 1_000_000 then [Stale(id)]
    else []
  }

  /** What is wrong with one cited record. */
  function RecordFlaws(id: string, r: CheckResult, c: CheckContract, evidence: map<string, EvidenceRecord>): seq<Flaw> {
    if id !in evidence then [MissingRecord(id)]
    else
      var e := evidence[id];
      if !ValidEvidence(e) then [InvalidRecord(id)]
      else
        (if e.kind !in c.acceptedKinds then [UnacceptedKind(id)] else [])
        + (if e.subjectId != r.subjectId then [OtherSubject(id)] else [])
        + (if e.subjectRevision != r.subjectRevision then [OtherRevision(id)] else [])
        + AgeFlaw(id, e.collectedAt, r, c)
  }

  function CitedFlaws(
      ids: seq<string>, r: CheckResult, c: CheckContract, evidence: map<string, EvidenceRecord>): seq<Flaw> {
    if ids == [] then []
    else CitedFlaws(ids[..|ids| - 1], r, c, evidence) + RecordFlaws(ids[|ids| - 1], r, c, evidence)
  }

  function GeneralFlaws(r: CheckResult, c: CheckContract): seq<Flaw> {
    (if |r.evidenceIds| < c.minimumEvidence then [TooFew] else [])
    + (if !NoDuplicates(r.evidenceIds) then [DuplicateIds] else [])
    + (if c.requiresIndependentEvaluator && r.evaluatorGroup == r.subjectGroup then [NotIndependent] else [])
  }

  function Flaws(r: CheckResult, c: CheckContract, evidence: map<string, EvidenceRecord>): seq<Flaw> {
    GeneralFlaws(r, c) + CitedFlaws(r.evidenceIds, r, c, evidence)
  }

  /** A result that names another check or version is refused outright. */
  predicate Assessable(r: CheckResult, c: CheckContract) {
    r.checkId == c.id && r.checkVersion == c.version
  }

  // ---------------------------------------------------------------- exceptions

  datatype Verdict = Accepted | Rejected(why: Rejection) | Unaccountable

  datatype Rejection =
    NonWaivable | Incomplete | OtherGateOrCheck | OtherSubjectRevision | UnacceptedAuthority | HasExpired

  /** The part of a gate evaluation that is the same for every check. */
  datatype Subject = Subject(id: string, revision: string, evaluatedAt: int)

  predicate Complete(x: GateException) {
    && x.id.Some? && x.gateId.Some? && x.checkId.Some? && x.subjectId.Some? && x.subjectRevision.Some?
    && x.authority.Some? && x.grantedBy.Some? && x.rationale.Some? && x.expiresAt.Some?
  }

  function VerdictOn(x: GateException, g: GateContract, r: CheckRule, s: Subject): Verdict {
    if !r.waivable then Rejected(NonWaivable)
    else if !Complete(x) then Rejected(Incomplete)
    else if x.gateId.value != g.id || x.checkId.value != r.checkId then Rejected(OtherGateOrCheck)
    else if x.subjectId.value != s.id || x.subjectRevision.value != s.revision then Rejected(OtherSubjectRevision)
    else if x.authority.value !in g.acceptedExceptionAuthorities then Rejected(UnacceptedAuthority)
    else if Blank(x.grantedBy.value) || Blank(x.rationale.value) then Unaccountable
    else if s.evaluatedAt > x.expiresAt.value then Rejected(HasExpired)
    else Accepted
  }

  // ---------------------------------------------------------------- one required check

  datatype Judgement =
    NoResult | WrongSubject | DatedAfterGate | Inadmissible(flaws: seq<Flaw>) | Passing
    | Excused(exceptionId: string) | Failing(rejected: Option<Rejection>)
    | Unproven(status: CheckStatus, rejected: Option<Rejection>)

  datatype GateError =
    InvalidGate | InvalidEvidence | DuplicateResult | DuplicateException | MismatchedResult
    | UnaccountableException

  /** The inputs of one evaluation, indexed as the evaluator indexes them. */
  datatype Dossier = Dossier(
    gate: GateContract, library: map<string, CheckContract>, results: map<string, CheckResult>,
    evidence: map<string, EvidenceRecord>, exceptions: map<Option<string>, GateException>, subject: Subject)

  function Unexcused(status: CheckStatus, rejected: Option<Rejection>): Judgement {
    if status == Failed then Failing(rejected) else Unproven(status, rejected)
  }

  function Judge(rule: CheckRule, d: Dossier): Result<Judgement, GateError>
    requires rule.checkId in d.library
  {
    if rule.checkId !in d.results then Success(NoResult)
    else
      var r, c := d.results[rule.checkId], d.library[rule.checkId];
      if r.subjectId != d.subject.id || r.subjectRevision != d.subject.revision then Success(WrongSubject)
      else if r.evaluatedAt > d.subject.evaluatedAt then Success(DatedAfterGate)
      else if !Assessable(r, c) then Failure(MismatchedResult)
      else if Flaws(r, c, d.evidence) != [] then Success(Inadmissible(Flaws(r, c, d.evidence)))
      else if r.status == Passed then Success(Passing)
      else if Some(rule.checkId) !in d.exceptions then Success(Unexcused(r.status, None))
      else
        var x := d.exceptions[Some(rule.checkId)];
        match VerdictOn(x, d.gate, rule, d.subject)
        case Accepted => Success(Excused(x.id.value))
        case Rejected(why) => Success(Unexcused(r.status, Some(why)))
        case Unaccountable => Failure(UnaccountableException)
  }

  /** Judgements in rule order; the first refusal stops the evaluation. */
  function JudgeAll(rules: seq<CheckRule>, d: Dossier): Result<seq<Judgement>, GateError>
    requires forall r :: r in rules ==> r.checkId in d.library
    ensures JudgeAll(rules, d).Success? ==> |JudgeAll(rules, d).value| == |rules|
  {
    if rules == [] then Success([])
    else
      match JudgeAll(rules[..|rules| - 1], d)
      case Failure(error) => Failure(error)
      case Success(front) =>
        match Judge(rules[|rules| - 1], d)
        case Failure(error) => Failure(error)
        case Success(last) => Success(front + [last])
  }

  // ---------------------------------------------------------------- the gate

  datatype GateOutcome = GatePassed | GatePassedWithException | GateFailed | GateInconclusive

  predicate Promotable(o: GateOutcome) {
    o == GatePassed || o == GatePassedWithException
  }

  predicate Invalidates(j: Judgement) {
    j.WrongSubject? || j.DatedAfterGate? || j.Inadmissible?
  }

  predicate LeavesOpen(j: Judgement) {
    j.NoResult? || Invalidates(j) || j.Unproven?
  }

  function OutcomeOf(js: seq<Judgement>): GateOutcome {
    if exists j :: j in js && j.Failing? then GateFailed
    else if exists j :: j in js && LeavesOpen(j) then GateInconclusive
    else if exists j :: j in js && j.Excused? then GatePassedWithException
    else GatePassed
  }

  datatype GateEvaluation = GateEvaluation(
    outcome: GateOutcome, promotable: bool, requiredChecks: seq<string>, advisoryChecks: seq<string>,
    missingChecks: seq<string>, invalidChecks: seq<string>, acceptedExceptions: seq<string>,
    judgements: seq<Judgement>)

  /** Check ids whose judgement has some property, in rule order. */
  function ChecksWith(rules: seq<CheckRule>, js: seq<Judgement>, p: Judgement -> bool): seq<string>
    requires |rules| == |js|
  {
    if rules == [] then []
    else
      var n := |rules| - 1;
      ChecksWith(rules[..n], js[..n], p) + (if p(js[n]) then [rules[n].checkId] else [])
  }

  function ExcusesIn(js: seq<Judgement>): seq<string> {
    if js == [] then []
    else
      var n := |js| - 1;
      ExcusesIn(js[..n]) + (if js[n].Excused? then [js[n].exceptionId] else [])
  }

  function IsMissing(): Judgement -> bool {
    (j: Judgement) => j.NoResult?
  }

  function IsInvalid(): Judgement -> bool {
    (j: Judgement) => Invalidates(j)
  }

  function Report(rules: seq<CheckRule>, advisory: seq<CheckRule>, js: seq<Judgement>): GateEvaluation
    requires |rules| == |js|
  {
    GateEvaluation(
      OutcomeOf(js), Promotable(OutcomeOf(js)), Map(RuleCheck(), rules), Map(RuleCheck(), advisory),
      ChecksWith(rules, js, IsMissing()), ChecksWith(rules, js, IsInvalid()), ExcusesIn(js), js)
  }

  /** The caller's inputs. */
  datatype Submission = Submission(
    gate: GateContract, library: map<string, CheckContract>, results: seq<CheckResult>,
    evidence: seq<EvidenceRecord>, facts: map<string, Json>, exceptions: seq<GateException>, subject: Subject)

  function Indexed(n: Submission): Dossier {
    Dossier(n.gate, n.library, IndexBy(n.results, ResultCheck()), IndexBy(n.evidence, EvidenceId()),
            IndexBy(n.exceptions, ExceptionCheck()), n.subject)
  }

  function CheckSubmission(n: Submission): Option<GateError> {
    if !ValidGateContract(n.gate, n.library) then Some(InvalidGate)
    else if !((forall e :: e in n.evidence ==> ValidEvidence(e)) && NoDuplicates(Map(EvidenceId(), n.evidence))) then
      Some(InvalidEvidence)
    else if !NoDuplicates(Map(ResultCheck(), n.results)) then Some(DuplicateResult)
    else if !NoDuplicates(Map(ExceptionCheck(), n.exceptions)) then Some(DuplicateException)
    else None
  }

  function Evaluate(n: Submission): Result<GateEvaluation, GateError> {
    match CheckSubmission(n)
    case Some(error) => Failure(error)
    case None =>
      var rules := Filter(n.gate.checkRules, Selects(n.facts));
      match JudgeAll(rules, Indexed(n))
      case Failure(error) => Failure(error)
      case Success(js) => Success(Report(rules, Filter(n.gate.checkRules, Advises()), js))
  }
}
