/** Recovery planning: from a verified history and the current leases, decide what to do about every
    interrupted run. */
module Recovery {
  import opened Orders
  import opened Collections
  import opened Json
  import opened EventLog

  datatype LeaseStatus = Active | Released | Expired | Revoked

  datatype Lease = Lease(
    leaseId: string, holderRunId: string, acquiredAt: int, heartbeatAt: int, expiresAt: int,
    status: LeaseStatus, attempt: int, dispatchDigest: string)

  datatype Action =
    WaitForLease | ReclaimAndRequeue | VerifyExternalEffect | ReconcileCompletedRun
    | ReconcileOrphanRun | EscalateAttemptBudget

  datatype Step = Step(action: Action, runId: string, leaseId: Option<string>)

  datatype RecoveryPlan = RecoveryPlan(generatedAt: int, verifiedThroughSequence: nat, steps: seq<Step>)

  datatype RecoveryError = BrokenHistory(fault: LogError) | InvalidBudget | InvalidRuns | InvalidLeases

  /** What a plan is made against besides the history and the leases. */
  datatype Situation = Situation(effects: map<string, string>, now: int, maxAttempts: int)

  // ---------------------------------------------------------------- reading the history

  function PayloadOf(e: Object): Object {
    if Field(e, "payload").JObj? then Field(e, "payload").fields else map[]
  }

  predicate IsDispatch(e: Object) {
    TextOf(e, "eventType") == "run.dispatched"
  }

  predicate IsCompletion(e: Object) {
    TextOf(e, "eventType") == "run.completed"
  }

  predicate NamesRun(e: Object) {
    HasText(PayloadOf(e), "runId")
  }

  function RunOf(e: Object): string {
    TextOf(PayloadOf(e), "runId")
  }

  predicate RunsNamed(events: seq<Object>) {
    forall e :: e in events && (IsDispatch(e) || IsCompletion(e)) ==> NamesRun(e)
  }

  predicate DispatchedOnce(events: seq<Object>) {
    forall i, j :: 0 <= i < j < |events| && IsDispatch(events[i]) && IsDispatch(events[j])
      ==> RunOf(events[i]) != RunOf(events[j])
  }

  function DispatchedRuns(events: seq<Object>): set<string> {
    set e | e in events && IsDispatch(e) :: RunOf(e)
  }

  function CompletedRuns(events: seq<Object>): set<string> {
    set e | e in events && IsCompletion(e) :: RunOf(e)
  }

  function DispatchOf(run: string): Object -> bool {
    (e: Object) => IsDispatch(e) && RunOf(e) == run
  }

  /** The payload of the dispatch of `run`. */
  function DispatchPayload(events: seq<Object>, run: string): Object {
    var found := Filter(events, DispatchOf(run));
    if found == [] then map[] else PayloadOf(found[0])
  }

  // ---------------------------------------------------------------- leases

  predicate ValidLease(l: Lease) {
    l.attempt >= 1 && l.acquiredAt <= l.heartbeatAt <= l.expiresAt && IsDigest(l.dispatchDigest)
  }

  function Holder(): Lease -> string {
    (l: Lease) => l.holderRunId
  }

  predicate ValidLeases(leases: seq<Lease>) {
    (forall l :: l in leases ==> ValidLease(l)) && NoDuplicates(Map(Holder(), leases))
  }

  function HeldBy(run: string): Lease -> bool {
    (l: Lease) => l.holderRunId == run
  }

  function LeaseOf(leases: seq<Lease>, run: string): Option<Lease> {
    var found := Filter(leases, HeldBy(run));
    if found == [] then None else Some(found[0])
  }

  // ---------------------------------------------------------------- the decision for one run

  /** What the authoritative system says about the run's effect; a key must be a non-empty string. */
  predicate EffectSucceeded(payload: Object, effects: map<string, string>) {
    var key := TextOf(payload, "effectKey");
    key != "" && key in effects && effects[key] == "succeeded"
  }

  predicate EffectPossible(payload: Object) {
    Field(payload, "externalSideEffectPossible") == JBool(true)
  }

  function StepFor(run: string, payload: Object, lease: Option<Lease>, completed: bool, s: Situation): Option<Step> {
    if completed then
      if lease.Some? && lease.value.status == Active then
        Some(Step(ReconcileCompletedRun, run, Some(lease.value.leaseId)))
      else None
    else if lease.None? then Some(Step(ReconcileOrphanRun, run, None))
    else if lease.value.status != Active then Some(Step(ReconcileOrphanRun, run, Some(lease.value.leaseId)))
    else if s.now <= lease.value.expiresAt then Some(Step(WaitForLease, run, Some(lease.value.leaseId)))
    else if EffectSucceeded(payload, s.effects) then
      Some(Step(ReconcileCompletedRun, run, Some(lease.value.leaseId)))
    else if EffectPossible(payload) then Some(Step(VerifyExternalEffect, run, Some(lease.value.leaseId)))
    else if lease.value.attempt >= s.maxAttempts then
      Some(Step(EscalateAttemptBudget, run, Some(lease.value.leaseId)))
    else Some(Step(ReclaimAndRequeue, run, Some(lease.value.leaseId)))
  }

  function DecisionFor(run: string, events: seq<Object>, leases: seq<Lease>, s: Situation): Option<Step> {
    StepFor(run, DispatchPayload(events, run), LeaseOf(leases, run), run in CompletedRuns(events), s)
  }

  function StepsFor(runs: seq<string>, events: seq<Object>, leases: seq<Lease>, s: Situation): seq<Step> {
    if runs == [] then []
    else
      var step := DecisionFor(runs[0], events, leases, s);
      (if step.Some? then [step.value] else []) + StepsFor(runs[1..], events, leases, s)
  }

  function Plan(p: Platform, events: seq<Object>, leases: seq<Lease>, s: Situation):
    Result<RecoveryPlan, RecoveryError>
  {
    var fault := FirstFault(p, events, 0);
    if fault.Some? then Failure(BrokenHistory(fault.value))
    else if s.maxAttempts < 1 then Failure(InvalidBudget)
    else if !RunsNamed(events) || !DispatchedOnce(events) then Failure(InvalidRuns)
    else if !ValidLeases(leases) then Failure(InvalidLeases)
    else
      Success(RecoveryPlan(s.now, |events|, StepsFor(SortedSet(DispatchedRuns(events)), events, leases, s)))
  }

  // ---------------------------------------------------------------- the loops

  /** The dictionary of dispatches by run, and the set of completed runs. */
  ghost predicate Scanned(events: seq<Object>, dispatches: map<string, Object>, completed: set<string>) {
    && RunsNamed(events) && DispatchedOnce(events)
    && dispatches.Keys == DispatchedRuns(events)
    && (forall run :: run in dispatches ==> PayloadOf(dispatches[run]) == DispatchPayload(events, run))
    && completed == CompletedRuns(events)
  }

  lemma DispatchedRunsStep(events: seq<Object>, e: Object)
    ensures DispatchedRuns(events + [e]) == DispatchedRuns(events) + (if IsDispatch(e) then {RunOf(e)} else {})
    ensures CompletedRuns(events + [e]) == CompletedRuns(events) + (if IsCompletion(e) then {RunOf(e)} else {})
  {
    hide IsDispatch, IsCompletion, RunOf;
    var longer := events + [e];
    forall r | r in DispatchedRuns(events) ensures r in DispatchedRuns(longer) {
      var x :| x in events && IsDispatch(x) && r == RunOf(x);
      assert x in longer;
    }
    forall r | r in CompletedRuns(events) ensures r in CompletedRuns(longer) {
      var x :| x in events && IsCompletion(x) && r == RunOf(x);
      assert x in longer;
    }
    assert e in longer;
  }

  lemma DispatchPayloadStep(events: seq<Object>, e: Object, run: string)
    ensures DispatchPayload(events + [e], run)
         == if run in DispatchedRuns(events) then DispatchPayload(events, run)
            else if IsDispatch(e) && RunOf(e) == run then PayloadOf(e) else map[]
  {
    hide IsDispatch, RunOf, PayloadOf;
    FilterAppend(events, [e], DispatchOf(run));
    var found := Filter(events, DispatchOf(run));
    if found != [] {
      assert found[0] in found;
      assert found[0] in events && IsDispatch(found[0]) && RunOf(found[0]) == run;
    }
    if run in DispatchedRuns(events) {
      var x :| x in events && IsDispatch(x) && run == RunOf(x);
      assert x in found;
    }
  }

  /** One more event in the scan, as a dispatch, a completion or neither. */
  lemma ScanStep(
    events: seq<Object>, e: Object, dispatches: map<string, Object>, completed: set<string>)
    requires Scanned(events, dispatches, completed)
    requires IsDispatch(e) || IsCompletion(e) ==> NamesRun(e)
    requires IsDispatch(e) ==> RunOf(e) !in dispatches
    ensures Scanned(events + [e],
                    if IsDispatch(e) then dispatches[RunOf(e) := e] else dispatches,
                    if IsCompletion(e) then completed + {RunOf(e)} else completed)
  {
    hide IsDispatch, IsCompletion, RunOf, NamesRun, PayloadOf, DispatchPayload;
    var longer := events + [e];
    DispatchedRunsStep(events, e);
    var dispatches' := if IsDispatch(e) then dispatches[RunOf(e) := e] else dispatches;
    forall run | run in dispatches' ensures PayloadOf(dispatches'[run]) == DispatchPayload(longer, run) {
      DispatchPayloadStep(events, e, run);
    }
    forall i, j | 0 <= i < j < |longer| && IsDispatch(longer[i]) && IsDispatch(longer[j])
      ensures RunOf(longer[i]) != RunOf(longer[j])
    {
      if j == |events| {
        assert longer[i] in events;
        assert RunOf(longer[i]) in DispatchedRuns(events);
      }
    }
  }

  lemma ScanStart()
    ensures Scanned([], map[], {})
  {
  }

  /** A prefix that already repeats a dispatch or leaves a run unnamed stays refused. */
  lemma RefusedPrefix(events: seq<Object>, i: nat)
    requires i < |events|
    requires ((IsDispatch(events[i]) || IsCompletion(events[i])) && !NamesRun(events[i]))
      || (IsDispatch(events[i]) && RunOf(events[i]) in DispatchedRuns(events[..i]))
    ensures !RunsNamed(events) || !DispatchedOnce(events)
  {
    hide IsDispatch, IsCompletion, NamesRun, RunOf;
    assert events[i] in events;
    if IsDispatch(events[i]) && RunOf(events[i]) in DispatchedRuns(events[..i]) {
      var x :| x in events[..i] && IsDispatch(x) && RunOf(x) == RunOf(events[i]);
      var k :| 0 <= k < i && events[k] == x;
    }
  }

  method ScanRuns(events: seq<Object>)
    returns (ok: bool, dispatches: map<string, Object>, completed: set<string>)
    ensures ok <==> RunsNamed(events) && DispatchedOnce(events)
    ensures ok ==> Scanned(events, dispatches, completed)
  {
    hide IsDispatch, IsCompletion, NamesRun, RunOf, RunsNamed, DispatchedOnce, DispatchedRuns;
    dispatches, completed := map[], {};
    ScanStart();
    assert events[..0] == [];
    for i := 0 to |events|
      invariant Scanned(events[..i], dispatches, completed)
    {
      var event := events[i];
      assert events[..i + 1] == events[..i] + [event];
      if (IsDispatch(event) || IsCompletion(event)) && !NamesRun(event) {
        RefusedPrefix(events, i);
        return false, dispatches, completed;
      }
      if IsDispatch(event) && RunOf(event) in dispatches {
        RefusedPrefix(events, i);
        return false, dispatches, completed;
      }
      ScanStep(events[..i], event, dispatches, completed);
      if IsDispatch(event) {
        dispatches := dispatches[RunOf(event) := event];
      }
      if IsCompletion(event) {
        completed := completed + {RunOf(event)};
      }
    }
    assert events[..|events|] == events;
    ok := true;
  }

  /** The dictionary of leases by holder. */
  ghost predicate Indexed(leases: seq<Lease>, byRun: map<string, Lease>) {
    && ValidLeases(leases)
    && (forall run :: LeaseOf(leases, run) == if run in byRun then Some(byRun[run]) else None)
  }

  lemma IndexStep(leases: seq<Lease>, l: Lease, byRun: map<string, Lease>)
    requires Indexed(leases, byRun) && ValidLease(l) && l.holderRunId !in byRun
    ensures Indexed(leases + [l], byRun[l.holderRunId := l])
  {
    hide ValidLease, LeaseOf, NoDuplicates, Map;
    forall run ensures LeaseOf(leases + [l], run)
      == if run in byRun[l.holderRunId := l] then Some(byRun[l.holderRunId := l][run]) else None
    {
      OneMoreLease(leases, l, run);
      assert LeaseOf(leases, run) == if run in byRun then Some(byRun[run]) else None;
    }
    MapSnoc(Holder(), leases, l);
    LastDistinct(Map(Holder(), leases), l.holderRunId);
    if l.holderRunId in Map(Holder(), leases) { HolderHasLease(leases, l.holderRunId); }
  }

  lemma OneMoreLease(leases: seq<Lease>, l: Lease, run: string)
    ensures LeaseOf(leases + [l], run)
         == if LeaseOf(leases, run).Some? then LeaseOf(leases, run)
            else if l.holderRunId == run then Some(l) else None
  {
    FilterAppend(leases, [l], HeldBy(run));
  }

  lemma HolderHasLease(leases: seq<Lease>, run: string)
    requires run in Map(Holder(), leases)
    ensures LeaseOf(leases, run).Some?
  {
    var k :| 0 <= k < |leases| && Map(Holder(), leases)[k] == run;
    assert leases[k] in Filter(leases, HeldBy(run));
  }

  lemma RefusedLease(leases: seq<Lease>, i: nat, byRun: map<string, Lease>)
    requires i < |leases| && Indexed(leases[..i], byRun)
    requires !ValidLease(leases[i]) || leases[i].holderRunId in byRun
    ensures !ValidLeases(leases)
  {
    hide ValidLease, LeaseOf, Map;
    var run := leases[i].holderRunId;
    if run in byRun {
      assert LeaseOf(leases[..i], run).Some?;
      var k := LeaseHolder(leases[..i], run);
      assert Map(Holder(), leases)[k] == Map(Holder(), leases)[i];
    }
  }

  lemma LeaseHolder(leases: seq<Lease>, run: string) returns (k: nat)
    requires LeaseOf(leases, run).Some?
    ensures k < |leases| && leases[k].holderRunId == run
  {
    var found := Filter(leases, HeldBy(run));
    assert found[0] in found;
    k :| 0 <= k < |leases| && leases[k] == found[0];
  }

  method IndexLeases(leases: seq<Lease>) returns (ok: bool, byRun: map<string, Lease>)
    ensures ok <==> ValidLeases(leases)
    ensures ok ==> Indexed(leases, byRun)
  {
    hide ValidLease, ValidLeases, LeaseOf;
    byRun := map[];
    NoLeases();
    assert leases[..0] == [];
    for i := 0 to |leases|
      invariant Indexed(leases[..i], byRun)
    {
      var lease := leases[i];
      assert leases[..i + 1] == leases[..i] + [lease];
      if !ValidLease(lease) || lease.holderRunId in byRun {
        RefusedLease(leases, i, byRun);
        return false, byRun;
      }
      IndexStep(leases[..i], lease, byRun);
      byRun := byRun[lease.holderRunId := lease];
    }
    assert leases[..|leases|] == leases;
    ok := true;
  }

  lemma NoLeases()
    ensures Indexed([], map[])
  {
  }

  /** Decides run by run, in the given order. */
  method DecideAll(
    runs: seq<string>, dispatches: map<string, Object>, leaseByRun: map<string, Lease>, completed: set<string>,
    s: Situation, ghost events: seq<Object>, ghost leases: seq<Lease>)
    returns (steps: seq<Step>)
    requires Scanned(events, dispatches, completed) && Indexed(leases, leaseByRun)
    requires forall run :: run in runs ==> run in dispatches
    ensures steps == StepsFor(runs, events, leases, s)
  {
    hide RunsNamed, DispatchedOnce, ValidLeases, StepFor, LeaseOf, DispatchPayload, DispatchedRuns, CompletedRuns,
      StepsFor;
    steps := [];
    assert runs[0..] == runs;
    for i := 0 to |runs|
      invariant steps + StepsFor(runs[i..], events, leases, s) == StepsFor(runs, events, leases, s)
    {
      var run := runs[i];
      StepsUnfold(runs, i, events, leases, s);
      var lease := if run in leaseByRun then Some(leaseByRun[run]) else None;
      var step := StepFor(run, PayloadOf(dispatches[run]), lease, run in completed, s);
      assert step == DecisionFor(run, events, leases, s);
      if step.Some? {
        steps := steps + [step.value];
      }
    }
    NoMoreSteps(runs, events, leases, s);
  }

  /** The whole planner: the plan the specification gives, or the same error. */
  method PlanRecovery(
    p: Platform, events: seq<Object>, leases: seq<Lease>, effects: map<string, string>, now: int, maxAttempts: int)
    returns (r: Result<RecoveryPlan, RecoveryError>)
    ensures r == Plan(p, events, leases, Situation(effects, now, maxAttempts))
  {
    hide FirstFault, RunsNamed, DispatchedOnce, ValidLeases, LeaseOf, SortedSet, StepsFor, DispatchPayload,
      CompletedRuns;
    var fault := VerifyEventChain(p, events);
    if fault.Some? {
      return Failure(BrokenHistory(fault.value));
    }
    if maxAttempts < 1 {
      return Failure(InvalidBudget);
    }
    var scanned, dispatches, completed := ScanRuns(events);
    if !scanned {
      return Failure(InvalidRuns);
    }
    var indexed, leaseByRun := IndexLeases(leases);
    if !indexed {
      return Failure(InvalidLeases);
    }
    SortedSetFacts(dispatches.Keys);
    var steps := DecideAll(SortedSet(dispatches.Keys), dispatches, leaseByRun, completed,
                           Situation(effects, now, maxAttempts), events, leases);
    r := Success(RecoveryPlan(now, |events|, steps));
  }

  lemma StepsUnfold(runs: seq<string>, i: nat, events: seq<Object>, leases: seq<Lease>, s: Situation)
    requires i < |runs|
    ensures var step := DecisionFor(runs[i], events, leases, s);
      StepsFor(runs[i..], events, leases, s)
      == (if step.Some? then [step.value] else []) + StepsFor(runs[i + 1..], events, leases, s)
  {
    hide DecisionFor;
    assert runs[i..][0] == runs[i] && runs[i..][1..] == runs[i + 1..];
  }

  lemma NoMoreSteps(runs: seq<string>, events: seq<Object>, leases: seq<Lease>, s: Situation)
    ensures StepsFor(runs[|runs|..], events, leases, s) == []
  {
  }
}
