/** The bounded repair loop: implement, verify, review and judge, and repair while the budget lasts.
    Execution, command running and review are ports: arbitrary functions of what they are asked and of
    the attempt, and each may throw (`None`). */
module RepairLoop {
  import opened Collections
  import opened ReviewGate

  datatype State = Eligible | Running | Verifying | Reviewing | RepairRequired | Accepted | Closed | Blocked

  datatype Kind = Implementation | Repair

  datatype Details =
    | NoDetails
    | Started(attempt: nat, kind: Kind)
    | At(attempt: nat, revision: string)
    | Rejected(attempt: nat, reasons: seq<Reason>)
    | Exhausted(repairBudget: nat, reasons: seq<Reason>)

  datatype Entry = Entry(workPackageId: string, state: State, details: Details)

  datatype Store = Store(transitions: seq<Entry>, evidence: seq<Evidence>, gates: seq<Gate>)

  datatype ExecutionResult = ExecutionResult(revision: string, producerGroup: string)

  datatype ReviewResult = ReviewResult(approved: bool, evidence: Evidence)

  /** `run` is asked for the check at a position of the list, so that two equal checks may differ. */
  datatype Ports = Ports(
    execute: (nat, Option<Gate>) -> Option<ExecutionResult>,
    run: (nat, nat, CheckDefinition) -> Option<CommandResult>,
    review: (nat, string, string) -> Option<ReviewResult>,
    seal: (seq<string>, CommandResult) -> string,
    name: (string, string) -> string)

  datatype Input = Input(workPackageId: string, checks: seq<CheckDefinition>, maxRepairAttempts: Option<int>)

  datatype FinalStatus = FinallyClosed | FinallyBlocked

  datatype Outcome = Outcome(status: FinalStatus, revision: string, attempts: nat, gate: Gate)

  /** How a run ends: refused before it starts, by a thrown port, or with an outcome. */
  datatype Ending = InvalidBudget | Threw | Finished(outcome: Outcome)

  function Budget(input: Input): int {
    if input.maxRepairAttempts.Some? then input.maxRepairAttempts.value else 3
  }

  // ---------------------------------------------------------------- one attempt

  function CheckAt(p: Ports, input: Input, attempt: nat, revision: string, i: nat): Option<CheckResult>
    requires i < |input.checks|
  {
    match p.run(attempt, i, input.checks[i])
    case None => None
    case Some(r) => Some(ResultOf(input.checks[i], r, input.workPackageId, revision, p.seal, p.name))
  }

  /** The results of the first `n` checks, up to the first that throws. */
  function ChecksDone(p: Ports, input: Input, attempt: nat, revision: string, n: nat): (r: seq<CheckResult>)
    requires n <= |input.checks|
    ensures |r| <= n
  {
    if n == 0 then []
    else
      var before := ChecksDone(p, input, attempt, revision, n - 1);
      if |before| < n - 1 then before
      else
        match CheckAt(p, input, attempt, revision, n - 1)
        case None => before
        case Some(x) => before + [x]
  }

  function EvidenceIn(): CheckResult -> Evidence {
    (r: CheckResult) => r.evidence
  }

  datatype Verdict = Verdict(revision: string, gate: Gate, approved: bool)

  predicate Acceptable(v: Verdict) {
    v.gate.promotable && v.approved
  }

  function JudgedGate(x: ExecutionResult, input: Input, results: seq<CheckResult>, review: ReviewResult): Gate {
    GateOf(x.revision, x.producerGroup, Map(RuleFor(), input.checks), results, Some(review.evidence))
  }

  function VerdictOf(p: Ports, input: Input, attempt: nat, prior: Option<Gate>): Option<Verdict> {
    match p.execute(attempt, prior)
    case None => None
    case Some(x) =>
      var results := ChecksDone(p, input, attempt, x.revision, |input.checks|);
      if |results| < |input.checks| then None
      else
        match p.review(attempt, x.revision, x.producerGroup)
        case None => None
        case Some(review) => Some(Verdict(x.revision, JudgedGate(x, input, results, review), review.approved))
  }

  /** What one attempt leaves in the store, whether or not it gets to its verdict. */
  function TrailOf(p: Ports, input: Input, attempt: nat, prior: Option<Gate>): Store {
    var id := input.workPackageId;
    var running := Entry(id, Running, Started(attempt, if attempt == 0 then Implementation else Repair));
    match p.execute(attempt, prior)
    case None => Store([running], [], [])
    case Some(x) =>
      var verifying := Entry(id, Verifying, At(attempt, x.revision));
      var results := ChecksDone(p, input, attempt, x.revision, |input.checks|);
      if |results| < |input.checks| then Store([running, verifying], Map(EvidenceIn(), results), [])
      else
        var reviewing := Entry(id, Reviewing, At(attempt, x.revision));
        match p.review(attempt, x.revision, x.producerGroup)
        case None => Store([running, verifying, reviewing], Map(EvidenceIn(), results), [])
        case Some(review) =>
          Store([running, verifying, reviewing], Map(EvidenceIn(), results) + [review.evidence],
                [JudgedGate(x, input, results, review)])
  }

  function Joined(s: Store, t: Store): Store {
    Store(s.transitions + t.transitions, s.evidence + t.evidence, s.gates + t.gates)
  }

  function Moved(s: Store, input: Input, state: State, details: Details): Store {
    s.(transitions := s.transitions + [Entry(input.workPackageId, state, details)])
  }

  // ---------------------------------------------------------------- the loop

  function RunFrom(p: Ports, input: Input, budget: nat, attempt: nat, prior: Option<Gate>, s: Store): (Ending, Store)
    requires attempt <= budget
    decreases budget - attempt
  {
    var s' := Joined(s, TrailOf(p, input, attempt, prior));
    match VerdictOf(p, input, attempt, prior)
    case None => (Threw, s')
    case Some(v) =>
      if Acceptable(v) then
        (Finished(Outcome(FinallyClosed, v.revision, attempt + 1, v.gate)),
         Moved(Moved(s', input, Accepted, At(attempt, v.revision)), input, Closed, At(attempt, v.revision)))
      else if attempt < budget then
        RunFrom(p, input, budget, attempt + 1, Some(v.gate),
                Moved(s', input, RepairRequired, Rejected(attempt, v.gate.reasons)))
      else
        (Finished(Outcome(FinallyBlocked, v.revision, budget + 1, v.gate)),
         Moved(s', input, Blocked, Exhausted(budget, v.gate.reasons)))
  }

  function Run(p: Ports, input: Input, s: Store): (Ending, Store) {
    if Budget(input) < 0 then (InvalidBudget, s)
    else RunFrom(p, input, Budget(input), 0, None, Moved(s, input, Eligible, NoDetails))
  }

  // ---------------------------------------------------------------- the store and the loop, in place

  class LifecycleStore {
    var transitions: seq<Entry>
    var evidence: seq<Evidence>
    var gates: seq<Gate>

    ghost function Contents(): Store
      reads this
    {
      Store(transitions, evidence, gates)
    }

    constructor ()
      ensures Contents() == Store([], [], [])
    {
      transitions, evidence, gates := [], [], [];
    }

    method Transition(input: Input, state: State, details: Details)
      modifies this
      ensures Contents() == Moved(old(Contents()), input, state, details)
    {
      transitions := transitions + [Entry(input.workPackageId, state, details)];
    }

    method RecordEvidence(e: Evidence)
      modifies this
      ensures Contents() == old(Contents()).(evidence := old(evidence) + [e])
    {
      evidence := evidence + [e];
    }

    method RecordGate(g: Gate)
      modifies this
      ensures Contents() == old(Contents()).(gates := old(gates) + [g])
    {
      gates := gates + [g];
    }
  }

  /** Runs the checks in order and records their evidence; `None` when one throws. */
  method RunChecks(p: Ports, input: Input, attempt: nat, revision: string, store: LifecycleStore)
    returns (r: Option<seq<CheckResult>>)
    modifies store
    ensures var results := ChecksDone(p, input, attempt, revision, |input.checks|);
      && r == (if |results| < |input.checks| then None else Some(results))
      && store.Contents() == old(store.Contents()).(evidence := old(store.evidence) + Map(EvidenceIn(), results))
  {
    hide ResultOf;
    var results: seq<CheckResult> := [];
    for i := 0 to |input.checks|
      invariant |results| == i && results == ChecksDone(p, input, attempt, revision, i)
      invariant store.Contents()
             == old(store.Contents()).(evidence := old(store.evidence) + Map(EvidenceIn(), results))
    {
      var ran := p.run(attempt, i, input.checks[i]);
      if ran.None? {
        ChecksStop(p, input, attempt, revision, i + 1, |input.checks|);
        return None;
      }
      var result := ResultOf(input.checks[i], ran.value, input.workPackageId, revision, p.seal, p.name);
      MapAppend(EvidenceIn(), results, [result]);
      results := results + [result];
      store.RecordEvidence(result.evidence);
    }
    r := Some(results);
  }

  /** Once a check has thrown, no later one is run. */
  lemma {:induction false} ChecksStop(p: Ports, input: Input, attempt: nat, revision: string, m: nat, n: nat)
    requires m <= n <= |input.checks| && |ChecksDone(p, input, attempt, revision, m)| < m
    ensures ChecksDone(p, input, attempt, revision, n) == ChecksDone(p, input, attempt, revision, m)
  {
    if m < n {
      ChecksStop(p, input, attempt, revision, m, n - 1);
    }
  }

  /** One attempt: execute, verify, review, judge. */
  method Attempt(p: Ports, input: Input, attempt: nat, prior: Option<Gate>, store: LifecycleStore)
    returns (r: Option<Verdict>)
    modifies store
    ensures r == VerdictOf(p, input, attempt, prior)
    ensures store.Contents() == Joined(old(store.Contents()), TrailOf(p, input, attempt, prior))
  {
    hide ChecksDone, GateOf, Map;
    store.Transition(input, Running, Started(attempt, if attempt == 0 then Implementation else Repair));
    var executed := p.execute(attempt, prior);
    if executed.None? { return None; }
    var x := executed.value;
    store.Transition(input, Verifying, At(attempt, x.revision));
    var checked := RunChecks(p, input, attempt, x.revision, store);
    if checked.None? { return None; }
    store.Transition(input, Reviewing, At(attempt, x.revision));
    var reviewed := p.review(attempt, x.revision, x.producerGroup);
    if reviewed.None? { return None; }
    var review := reviewed.value;
    store.RecordEvidence(review.evidence);
    var gate := EvaluateGate(x.revision, x.producerGroup, Map(RuleFor(), input.checks), checked.value,
                             Some(review.evidence));
    store.RecordGate(gate);
    r := Some(Verdict(x.revision, gate, review.approved));
  }

  method RunLifecycle(p: Ports, input: Input, store: LifecycleStore) returns (r: Ending)
    modifies store
    ensures (r, store.Contents()) == Run(p, input, old(store.Contents()))
  {
    hide VerdictOf, TrailOf;
    if Budget(input) < 0 { return InvalidBudget; }
    var budget: nat := Budget(input);
    store.Transition(input, Eligible, NoDetails);
    var priorGate: Option<Gate> := None;
    var latestRevision := "";
    for attempt := 0 to budget + 1
      invariant attempt > 0 ==> priorGate.Some?
      invariant attempt <= budget ==>
        RunFrom(p, input, budget, attempt, priorGate, store.Contents())
        == Run(p, input, old(store.Contents()))
      invariant attempt == budget + 1 ==>
        Run(p, input, old(store.Contents()))
        == (Finished(Outcome(FinallyBlocked, latestRevision, budget + 1, priorGate.value)),
            Moved(store.Contents(), input, Blocked, Exhausted(budget, priorGate.value.reasons)))
    {
      var verdict := Attempt(p, input, attempt, priorGate, store);
      if verdict.None? { return Threw; }
      var v := verdict.value;
      latestRevision := v.revision;
      if v.gate.promotable && v.approved {
        store.Transition(input, Accepted, At(attempt, v.revision));
        store.Transition(input, Closed, At(attempt, v.revision));
        return Finished(Outcome(FinallyClosed, v.revision, attempt + 1, v.gate));
      }
      priorGate := Some(v.gate);
      if attempt < budget {
        store.Transition(input, RepairRequired, Rejected(attempt, v.gate.reasons));
      }
    }
    store.Transition(input, Blocked, Exhausted(budget, priorGate.value.reasons));
    r := Finished(Outcome(FinallyBlocked, latestRevision, budget + 1, priorGate.value));
  }
}
