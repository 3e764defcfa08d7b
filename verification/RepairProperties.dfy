/** What the repair loop leaves behind, when it closes, and what closed means. */
module RepairProperties {
  import opened Collections
  import opened ReviewGate
  import opened RepairLoop
  import WorkPackageStore

  /** The states one run of the loop moved through. */
  function States(entries: seq<Entry>): seq<State> {
    Map((e: Entry) => e.state, entries)
  }

  const ATTEMPT: seq<State> := [Running, Verifying, Reviewing]

  /** `k` rounds that each end in a repair. */
  function Rounds(k: nat): seq<State> {
    if k == 0 then [] else ATTEMPT + [RepairRequired] + Rounds(k - 1)
  }

  // ---------------------------------------------------------------- the shape of a run

  /** The repair budget the caller gives, or three. */
  ghost predicate Allows(input: Input, budget: int) {
    input.maxRepairAttempts == Some(budget) || (input.maxRepairAttempts == None && budget == 3)
  }

  lemma TrailShape(p: Ports, input: Input, attempt: nat, prior: Option<Gate>)
    ensures var t, v := TrailOf(p, input, attempt, prior), VerdictOf(p, input, attempt, prior);
      if v.Some? then
        States(t.transitions) == ATTEMPT && t.gates == [v.value.gate] && |t.evidence| == |input.checks| + 1
      else
        1 <= |t.transitions| <= 3 && States(t.transitions) == ATTEMPT[..|t.transitions|] && t.gates == []
  {
    hide ChecksDone, GateOf;
  }

  /** How the states of a run end. */
  function Tail(e: Ending, partial: nat): seq<State>
    requires partial <= 3
  {
    match e
    case InvalidBudget => []
    case Threw => ATTEMPT[..partial]
    case Finished(o) => ATTEMPT + (if o.status == FinallyClosed then [Accepted, Closed] else [Blocked])
  }

  lemma StatesAppend(xs: seq<Entry>, ys: seq<Entry>)
    ensures States(xs + ys) == States(xs) + States(ys)
  {
    MapAppend((e: Entry) => e.state, xs, ys);
  }

  lemma OneState(e: Entry)
    ensures States([e]) == [e.state]
  {
  }

  /** What a run of the loop from `attempt` on leaves: `k` rounds of repair within the budget, then an attempt
      that closes, blocks at the end of the budget, or is cut short by a thrown port. */
  ghost predicate Shaped(e: Ending, input: Input, budget: nat, attempt: nat, s: Store, s': Store, k: nat, partial: nat)
  {
    && partial <= 3 && attempt + k <= budget && !e.InvalidBudget?
    && States(s'.transitions) == States(s.transitions) + Rounds(k) + Tail(e, partial)
    && (e.Threw? ==> partial >= 1 && |s'.gates| == |s.gates| + k)
    && (e.Finished? ==>
          && |s'.gates| == |s.gates| + k + 1 && s'.gates[|s'.gates| - 1] == e.outcome.gate
          && |s'.evidence| == |s.evidence| + (k + 1) * (|input.checks| + 1)
          && e.outcome.attempts == attempt + k + 1
          && (e.outcome.status == FinallyBlocked ==> attempt + k == budget))
  }

  /** One more round in front. */
  lemma ShapedStep(
    e: Ending, input: Input, budget: nat, attempt: nat, s: Store, s2: Store, s': Store, k: nat, partial: nat)
    requires Shaped(e, input, budget, attempt + 1, s2, s', k, partial)
    requires States(s2.transitions) == States(s.transitions) + ATTEMPT + [RepairRequired]
    requires |s2.gates| == |s.gates| + 1 && |s2.evidence| == |s.evidence| + |input.checks| + 1
    ensures Shaped(e, input, budget, attempt, s, s', k + 1, partial)
  {
    hide States, Tail;
    CountEvidence(|input.checks| + 1, k);
  }

  /** A last attempt, cut short or followed by its final states. */
  lemma ShapedEnd(e: Ending, input: Input, budget: nat, attempt: nat, s: Store, s': Store, partial: nat)
    requires attempt <= budget && partial <= 3 && !e.InvalidBudget?
    requires States(s'.transitions) == States(s.transitions) + Tail(e, partial)
    requires e.Threw? ==> partial >= 1 && |s'.gates| == |s.gates|
    requires e.Finished? ==>
      && |s'.gates| == |s.gates| + 1 && s'.gates[|s.gates|] == e.outcome.gate
      && |s'.evidence| == |s.evidence| + |input.checks| + 1 && e.outcome.attempts == attempt + 1
      && (e.outcome.status == FinallyBlocked ==> attempt == budget)
    ensures Shaped(e, input, budget, attempt, s, s', 0, partial)
  {
    hide States, Tail;
    assert States(s.transitions) + Rounds(0) == States(s.transitions);
  }

  lemma MovedStates(s: Store, input: Input, state: State, details: Details)
    ensures States(Moved(s, input, state, details).transitions) == States(s.transitions) + [state]
  {
    hide States;
    var entry := Entry(input.workPackageId, state, details);
    StatesAppend(s.transitions, [entry]);
    OneState(entry);
  }

  /** From any attempt on. */
  lemma {:induction false} LoopShape(p: Ports, input: Input, budget: nat, attempt: nat, prior: Option<Gate>, s: Store)
    returns (k: nat, partial: nat)
    requires attempt <= budget
    ensures var (e, s') := RunFrom(p, input, budget, attempt, prior, s);
      Shaped(e, input, budget, attempt, s, s', k, partial)
    decreases budget - attempt
  {
    hide TrailOf, VerdictOf, States, Acceptable, Shaped, Moved, Rounds;
    TrailShape(p, input, attempt, prior);
    var t, v := TrailOf(p, input, attempt, prior), VerdictOf(p, input, attempt, prior);
    var s1 := Joined(s, t);
    StatesAppend(s.transitions, t.transitions);
    var (e, s') := RunFrom(p, input, budget, attempt, prior, s);
    k, partial := 0, if v.None? then |t.transitions| else 0;
    if v.None? {
      ShapedEnd(e, input, budget, attempt, s, s', partial);
    } else if Acceptable(v.value) {
      var accepted := Moved(s1, input, Accepted, At(attempt, v.value.revision));
      MovedStates(s1, input, Accepted, At(attempt, v.value.revision));
      MovedStates(accepted, input, Closed, At(attempt, v.value.revision));
      MovedKeeps(s1, input, Accepted, At(attempt, v.value.revision));
      MovedKeeps(accepted, input, Closed, At(attempt, v.value.revision));
      ShapedEnd(e, input, budget, attempt, s, s', partial);
    } else if attempt < budget {
      var s2 := Moved(s1, input, RepairRequired, Rejected(attempt, v.value.gate.reasons));
      MovedStates(s1, input, RepairRequired, Rejected(attempt, v.value.gate.reasons));
      MovedKeeps(s1, input, RepairRequired, Rejected(attempt, v.value.gate.reasons));
      k, partial := LoopShape(p, input, budget, attempt + 1, Some(v.value.gate), s2);
      ShapedStep(e, input, budget, attempt, s, s2, s', k, partial);
      k := k + 1;
    } else {
      MovedStates(s1, input, Blocked, Exhausted(budget, v.value.gate.reasons));
      MovedKeeps(s1, input, Blocked, Exhausted(budget, v.value.gate.reasons));
      ShapedEnd(e, input, budget, attempt, s, s', partial);
    }
  }

  lemma MovedKeeps(s: Store, input: Input, state: State, details: Details)
    ensures Moved(s, input, state, details).gates == s.gates && Moved(s, input, state, details).evidence == s.evidence
  {
  }

  lemma CountEvidence(each: nat, k: nat)
    ensures each + (k + 1) * each == (k + 2) * each
  {
  }

  /** A run is refused for a negative budget and leaves the store alone. Otherwise it emits eligible, then
      at most the budget of rounds running, verifying, reviewing, repair required, then an attempt that is
      followed by accepted and closed, or by blocked with the budget used up, or that a thrown port cuts
      short; with one gate and one piece of evidence per check and review for every attempt that got to
      its verdict. */
  lemma RunShape(p: Ports, input: Input, s: Store, budget: int) returns (k: nat, partial: nat)
    requires Allows(input, budget)
    ensures partial <= 3
    ensures var (e, s') := Run(p, input, s);
      if budget < 0 then e.InvalidBudget? && s' == s
      else
        && k <= budget && !e.InvalidBudget?
        && States(s'.transitions) == States(s.transitions) + [Eligible] + Rounds(k) + Tail(e, partial)
        && (e.Threw? ==> partial >= 1 && |s'.gates| == |s.gates| + k)
        && (e.Finished? ==>
              && |s'.gates| == |s.gates| + k + 1 && s'.gates[|s'.gates| - 1] == e.outcome.gate
              && |s'.evidence| == |s.evidence| + (k + 1) * (|input.checks| + 1)
              && e.outcome.attempts == k + 1
              && (e.outcome.status == FinallyBlocked ==> k == budget))
  {
    hide RunFrom, States, Moved, Rounds;
    k, partial := 0, 0;
    if budget >= 0 {
      MovedStates(s, input, Eligible, NoDetails);
      MovedKeeps(s, input, Eligible, NoDetails);
      k, partial := LoopShape(p, input, budget, 0, None, Moved(s, input, Eligible, NoDetails));
    }
  }

  // ---------------------------------------------------------------- against the transition table

  function StatusOf(s: State): WorkPackageStore.Status {
    match s
    case Eligible => WorkPackageStore.Eligible
    case Running => WorkPackageStore.Running
    case Verifying => WorkPackageStore.Verifying
    case Reviewing => WorkPackageStore.Reviewing
    case RepairRequired => WorkPackageStore.RepairRequired
    case Accepted => WorkPackageStore.Accepted
    case Closed => WorkPackageStore.Closed
    case Blocked => WorkPackageStore.Blocked
  }

  /** The table allows the step, unless it is one into running. */
  predicate StepFits(from: State, to: State) {
    WorkPackageStore.Allowed(StatusOf(from), StatusOf(to)) <==> to != Running
  }

  predicate Fits(from: State, path: seq<State>)
    decreases |path|
  {
    path == [] || (StepFits(from, path[0]) && Fits(path[0], path[1..]))
  }

  lemma {:induction false} EachStepFits(from: State, path: seq<State>)
    requires Fits(from, path)
    ensures forall i :: 0 <= i < |path| ==> StepFits(([from] + path)[i], path[i])
    decreases |path|
  {
    if path == [] {
    } else {
      EachStepFits(path[0], path[1..]);
      assert path == [path[0]] + path[1..];
      forall i | 0 < i < |path| ensures StepFits(([from] + path)[i], path[i]) {
        assert StepFits(([path[0]] + path[1..])[i - 1], path[1..][i - 1]);
      }
    }
  }

  lemma FitsCons(from: State, to: State, rest: seq<State>)
    requires StepFits(from, to) && Fits(to, rest)
    ensures Fits(from, [to] + rest)
  {
    assert ([to] + rest)[1..] == rest;
  }

  lemma TailFits(from: State, e: Ending, partial: nat)
    requires from == Eligible || from == RepairRequired
    requires partial <= 3 && !e.InvalidBudget?
    ensures Fits(from, Tail(e, partial))
  {
    hide Fits;
    assert [Running] + [Verifying] == ATTEMPT[..2] && [Running] == ATTEMPT[..1] && ATTEMPT + [] == ATTEMPT[..3];
    assert [Accepted] + [Closed] == [Accepted, Closed];
    assert [Running] + [] == [Running] && [Verifying] + [] == [Verifying];
    assert [Blocked] + [] == [Blocked] && [Closed] + [] == [Closed];
    NothingFits(Running);
    FitsCons(from, Running, []);
    NothingFits(Verifying);
    FitsCons(Running, Verifying, []);
    FitsCons(from, Running, [Verifying]);
    NothingFits(Reviewing);
    AttemptFits(from, []);
    NothingFits(Blocked);
    FitsCons(Reviewing, Blocked, []);
    AttemptFits(from, [Blocked]);
    NothingFits(Closed);
    FitsCons(Accepted, Closed, []);
    FitsCons(Reviewing, Accepted, [Closed]);
    AttemptFits(from, [Accepted, Closed]);
    NothingFits(from);
  }

  lemma NothingFits(from: State)
    ensures Fits(from, [])
  {
  }

  /** A whole attempt, and what fits after a review. */
  lemma AttemptFits(from: State, rest: seq<State>)
    requires from == Eligible || from == RepairRequired
    requires Fits(Reviewing, rest)
    ensures Fits(from, ATTEMPT + rest)
  {
    hide Fits;
    FitsCons(Verifying, Reviewing, rest);
    FitsCons(Running, Verifying, [Reviewing] + rest);
    FitsCons(from, Running, [Verifying] + ([Reviewing] + rest));
    assert [Running] + ([Verifying] + ([Reviewing] + rest)) == ATTEMPT + rest;
  }

  lemma {:induction false} RoundsFit(from: State, k: nat, tail: seq<State>)
    requires from == Eligible || from == RepairRequired
    requires Fits(Eligible, tail) && Fits(RepairRequired, tail)
    ensures Fits(from, Rounds(k) + tail)
    decreases k
  {
    if k == 0 {
      assert Rounds(0) + tail == tail;
    } else {
      RoundsFit(RepairRequired, k - 1, tail);
      var rest := Rounds(k - 1) + tail;
      FitsCons(Reviewing, RepairRequired, rest);
      AttemptFits(from, [RepairRequired] + rest);
      assert Rounds(k) + tail == ATTEMPT + ([RepairRequired] + rest);
    }
  }

  /** Of all the steps of a run the table of package statuses forbids exactly those into running; so a run
      leaves the table with its second state, and again with every repair. */
  lemma OnlyRunningLeavesTheTable(p: Ports, input: Input, s: Store, budget: nat)
    requires Allows(input, budget)
    ensures var before, after := States(s.transitions), States(Run(p, input, s).1.transitions);
      && before <= after && |after| >= |before| + 2
      && after[|before|] == Eligible && after[|before| + 1] == Running
      && forall i :: |before| < i < |after| ==>
           (WorkPackageStore.Allowed(StatusOf(after[i - 1]), StatusOf(after[i])) <==> after[i] != Running)
  {
    hide Run, States, Rounds, Tail, Fits, StatusOf;
    var (e, s') := Run(p, input, s);
    var k, partial := RunShape(p, input, s, budget);
    var tail := Tail(e, partial);
    TailFits(Eligible, e, partial);
    TailFits(RepairRequired, e, partial);
    RoundsFit(Eligible, k, tail);
    StartsRunning(k, e, partial);
    var before, after := States(s.transitions), States(s'.transitions);
    assert after == before + [Eligible] + (Rounds(k) + tail);
    WalkFits(before, Rounds(k) + tail, after);
  }

  /** The steps of a path that was walked after others. */
  lemma WalkFits(before: seq<State>, path: seq<State>, after: seq<State>)
    requires Fits(Eligible, path) && path != [] && after == before + [Eligible] + path
    ensures |after| >= |before| + 2 && after[|before|] == Eligible && after[|before| + 1] == path[0]
    ensures forall i :: |before| < i < |after| ==>
      (WorkPackageStore.Allowed(StatusOf(after[i - 1]), StatusOf(after[i])) <==> after[i] != Running)
  {
    hide Fits, StatusOf, WorkPackageStore.Allowed;
    EachStepFits(Eligible, path);
    forall i | |before| < i < |after|
      ensures WorkPackageStore.Allowed(StatusOf(after[i - 1]), StatusOf(after[i])) <==> after[i] != Running
    {
      var j := i - |before| - 1;
      assert after[i] == path[j] && after[i - 1] == ([Eligible] + path)[j];
      assert StepFits(([Eligible] + path)[j], path[j]);
    }
  }

  lemma StartsRunning(k: nat, e: Ending, partial: nat)
    requires partial <= 3 && !e.InvalidBudget? && (e.Threw? ==> partial >= 1)
    ensures var path := Rounds(k) + Tail(e, partial); path != [] && path[0] == Running
  {
  }

  // ---------------------------------------------------------------- the first acceptable attempt

  /** The verdict of attempt `i`, given the gates of the attempts before it. */
  function VerdictAt(p: Ports, input: Input, i: nat): Option<Verdict> {
    if i == 0 then VerdictOf(p, input, 0, None)
    else
      match VerdictAt(p, input, i - 1)
      case None => None
      case Some(v) => VerdictOf(p, input, i, Some(v.gate))
  }

  ghost predicate RejectedAt(p: Ports, input: Input, i: nat) {
    VerdictAt(p, input, i).Some? && !Acceptable(VerdictAt(p, input, i).value)
  }

  function PriorAt(p: Ports, input: Input, i: nat): Option<Gate> {
    if i == 0 || VerdictAt(p, input, i - 1).None? then None else Some(VerdictAt(p, input, i - 1).value.gate)
  }

  lemma {:induction false} LoopStopsAtFirst(p: Ports, input: Input, budget: nat, attempt: nat, s: Store)
    requires attempt <= budget && forall i :: 0 <= i < attempt ==> RejectedAt(p, input, i)
    ensures var e := RunFrom(p, input, budget, attempt, PriorAt(p, input, attempt), s).0;
      && (e.Threw? <==> exists n :: attempt <= n <= budget && Stops(p, input, n) && VerdictAt(p, input, n).None?)
      && (e.Finished? && e.outcome.status == FinallyBlocked <==>
            forall n :: attempt <= n <= budget ==> RejectedAt(p, input, n))
      && (e.Finished? && e.outcome.status == FinallyClosed ==>
            var n := e.outcome.attempts - 1;
            && attempt <= n <= budget && Stops(p, input, n) && VerdictAt(p, input, n).Some?
            && Acceptable(VerdictAt(p, input, n).value)
            && e.outcome.revision == VerdictAt(p, input, n).value.revision
            && e.outcome.gate == VerdictAt(p, input, n).value.gate)
    decreases budget - attempt
  {
    hide TrailOf, VerdictOf, Acceptable;
    assert VerdictAt(p, input, attempt) == VerdictOf(p, input, attempt, PriorAt(p, input, attempt)) by {
      if attempt > 0 {
        assert RejectedAt(p, input, attempt - 1);
      }
    }
    var v := VerdictAt(p, input, attempt);
    if v.Some? && !Acceptable(v.value) {
      assert RejectedAt(p, input, attempt);
      if attempt < budget {
        var s' := Moved(Joined(s, TrailOf(p, input, attempt, PriorAt(p, input, attempt))), input, RepairRequired,
                        Rejected(attempt, v.value.gate.reasons));
        LoopStopsAtFirst(p, input, budget, attempt + 1, s');
        assert PriorAt(p, input, attempt + 1) == Some(v.value.gate);
      }
    } else {
      assert Stops(p, input, attempt);
      assert !RejectedAt(p, input, attempt);
    }
  }

  /** Attempt `n` is the first that is not rejected. */
  ghost predicate Stops(p: Ports, input: Input, n: nat) {
    !RejectedAt(p, input, n) && forall i :: 0 <= i < n ==> RejectedAt(p, input, i)
  }

  /** The loop ends at the first attempt within the budget that is acceptable or throws: it closes exactly
      with that attempt's revision and gate; it blocks exactly when every attempt of the budget was
      judged and rejected. */
  lemma RunEndsAtFirstAcceptance(p: Ports, input: Input, s: Store, budget: nat)
    requires Allows(input, budget)
    ensures var e := Run(p, input, s).0;
      && (e.Threw? <==> exists n :: 0 <= n <= budget && Stops(p, input, n) && VerdictAt(p, input, n).None?)
      && (e.Finished? && e.outcome.status == FinallyBlocked <==>
            forall n :: 0 <= n <= budget ==> RejectedAt(p, input, n))
      && (e.Finished? && e.outcome.status == FinallyClosed ==>
            var n := e.outcome.attempts - 1;
            && 0 <= n <= budget && Stops(p, input, n) && VerdictAt(p, input, n).Some?
            && Acceptable(VerdictAt(p, input, n).value)
            && e.outcome.revision == VerdictAt(p, input, n).value.revision
            && e.outcome.gate == VerdictAt(p, input, n).value.gate)
  {
    hide RunFrom, VerdictAt, RejectedAt, Stops;
    LoopStopsAtFirst(p, input, budget, 0, Moved(s, input, Eligible, NoDetails));
  }

  // ---------------------------------------------------------------- what closed means

  lemma {:induction false} EachCheckDone(p: Ports, input: Input, attempt: nat, revision: string, n: nat)
    requires n <= |input.checks| && |ChecksDone(p, input, attempt, revision, n)| == n
    ensures forall i :: 0 <= i < n ==>
      CheckAt(p, input, attempt, revision, i) == Some(ChecksDone(p, input, attempt, revision, n)[i])
  {
    hide CheckAt;
    if n == 0 {
    } else {
      EachCheckDone(p, input, attempt, revision, n - 1);
    }
  }

  /** The command ran to its end and exited with zero. */
  ghost predicate RanClean(p: Ports, input: Input, attempt: nat, i: nat)
    requires i < |input.checks|
  {
    var r := p.run(attempt, i, input.checks[i]);
    r.Some? && !r.value.timedOut && r.value.exitCode == Some(0)
  }

  /** The attempt produced this revision, an independent review of it approved, and, for distinct check
      ids, every command ran to its end and exited with zero. */
  ghost predicate VerifiedAttempt(p: Ports, input: Input, attempt: nat, prior: Option<Gate>, revision: string) {
    && p.execute(attempt, prior).Some?
    && var x := p.execute(attempt, prior).value;
       var review := p.review(attempt, x.revision, x.producerGroup);
       && revision == x.revision
       && review.Some? && review.value.approved
       && Approves(Some(review.value.evidence), x.revision, x.producerGroup)
       && (NoDuplicates(Map(CheckId(), input.checks)) ==>
             forall i :: 0 <= i < |input.checks| ==> RanClean(p, input, attempt, i))
  }

  /** An acceptable attempt was approved by an independent review of the very revision it produced, and,
      for distinct check ids, every command ran to its end and exited with zero. */
  lemma AcceptableMeansVerified(p: Ports, input: Input, attempt: nat, prior: Option<Gate>)
    requires VerdictOf(p, input, attempt, prior).Some? && Acceptable(VerdictOf(p, input, attempt, prior).value)
    ensures VerifiedAttempt(p, input, attempt, prior, VerdictOf(p, input, attempt, prior).value.revision)
  {
    hide ChecksDone, GateOf, Map, NoDuplicates, Approves;
    var x := p.execute(attempt, prior).value;
    var results := ChecksDone(p, input, attempt, x.revision, |input.checks|);
    var review := p.review(attempt, x.revision, x.producerGroup).value;
    var rules := Map(RuleFor(), input.checks);
    PromotableIffMetAndApproved(x.revision, x.producerGroup, rules, results, Some(review.evidence));
    if NoDuplicates(Map(CheckId(), input.checks)) {
      EachCheckDone(p, input, attempt, x.revision, |input.checks|);
      assert Aligned(results, input.checks, x.revision);
      DistinctChecksAllPass(input.checks, results, x.revision, x.producerGroup, Some(review.evidence));
      forall i | 0 <= i < |input.checks| ensures RanClean(p, input, attempt, i) {
        assert CheckAt(p, input, attempt, x.revision, i) == Some(results[i]);
        assert results[i].status == CheckPassed;
      }
    }
  }

  /** A closed run: the last attempt's own revision, reviewed independently and approved; and for distinct
      check ids every check passed at that revision. */
  lemma ClosedMeansVerified(p: Ports, input: Input, s: Store, budget: int)
    requires Allows(input, budget)
    requires Run(p, input, s).0.Finished? && Run(p, input, s).0.outcome.status == FinallyClosed
    ensures var o := Run(p, input, s).0.outcome;
      var attempt := o.attempts - 1;
      && 0 <= attempt <= budget && o.gate.promotable
      && VerifiedAttempt(p, input, attempt, PriorAt(p, input, attempt), o.revision)
  {
    hide Run, VerdictOf, VerifiedAttempt, RejectedAt;
    BudgetIsValid(p, input, s, budget);
    RunEndsAtFirstAcceptance(p, input, s, budget);
    var attempt := Run(p, input, s).0.outcome.attempts - 1;
    VerdictIsOfItsPrior(p, input, attempt);
    AcceptableMeansVerified(p, input, attempt, PriorAt(p, input, attempt));
  }

  /** A verdict the loop comes to is the verdict of that attempt after the gate of the attempt before. */
  lemma VerdictIsOfItsPrior(p: Ports, input: Input, i: nat)
    requires VerdictAt(p, input, i).Some?
    ensures VerdictAt(p, input, i) == VerdictOf(p, input, i, PriorAt(p, input, i))
  {
    hide VerdictOf;
  }

  lemma BudgetIsValid(p: Ports, input: Input, s: Store, budget: int)
    requires Allows(input, budget) && !Run(p, input, s).0.InvalidBudget?
    ensures budget >= 0
  {
    hide RunFrom;
  }
}
