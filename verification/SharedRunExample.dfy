/** A finished run that recovery refuses: two packages whose runs carry the same id. */
module SharedRunExample {
  import opened Collections
  import opened Orchestrator
  import opened OrchestratorProperties
  import opened Orders
  import opened Text
  import opened TraceRecording
  import EventLogProperties
  import EvidenceGates
  import Recovery
  import Scheduler
  import SchedulerProperties

  function ItemFor(id: string): WorkItem {
    WorkItem(
      Scheduler.Candidate("P", id, "r1", "adapter", Scheduler.Normal, 0, 0, [],
                          [Scheduler.Claim(id, Scheduler.Write)], map["agents" := 1]),
      Some("RUN-1"), false, true, false)
  }

  const FIRST := ItemFor("WP-1")
  const SECOND := ItemFor("WP-2")

  /** Two packages that do not conflict, and whose runs carry the same id. */
  const SHARED_RUN := Scenario(
    "S", "P", "REV", "T", "build", StartManagedIntake, "ROUTE", [], [FIRST, SECOND], [],
    Scheduler.Policy(map["agents" := 2], 60, 0), [], map["WP-1" := "r1", "WP-2" := "r1"], None)

  /** Services that let everything through; every run completes and passes its gate. */
  const OPEN_SERVICES := Services(
    (item: WorkItem) => Some(Authorization(AutoProceed, "allowed", [])),
    (item: WorkItem) => Success(ContextManifest("M", "D", 0)),
    (item: WorkItem, m: ContextManifest, d: AuthorizationDecision) => Success(Negotiated("adapter", "D", [])),
    (item: WorkItem, n: Negotiated) => Some("D"),
    (item: WorkItem, digest: string) => Some(RunResult(RunCompleted, [])),
    (item: WorkItem) => Some(GateReport(EvidenceGates.GatePassed, [])),
    (q: IntegrationRequest, done: seq<Completion>) => None)

  const READY :=
    Ready(Authorization(AutoProceed, "allowed", []), ContextManifest("M", "D", 0), Negotiated("adapter", "D", []))

  const RAN := Ran("D", RunResult(RunCompleted, []), Some(GateReport(EvidenceGates.GatePassed, [])))

  const SHARED_CONTEXT := SchedulingContext(SHARED_RUN, 0)

  /** Either package fits, alone or beside the other. */
  lemma FitsBeside(c: Scheduler.Candidate, held: seq<Scheduler.Reservation>, id: string, other: string)
    requires c == ItemFor(id).candidate && id in ["WP-1", "WP-2"] && other != id
    requires held == [] || held == [Scheduler.ReservationFor(ItemFor(other).candidate, SHARED_CONTEXT)]
    ensures Scheduler.BlockReasons(c, SHARED_CONTEXT, held) == []
  {
    hide Scheduler.BlockReasons;
    SchedulerProperties.BlockedIffReasons(c, SHARED_CONTEXT, held);
    HeldByOther(held, other);
    var costs := c.quotaCosts;
    assert costs.Keys == {"agents"} && SHARED_CONTEXT.policy.limits["agents"] == 2;
    assert Scheduler.Compatible(c.claims, held) by {
      forall r, left, right | r in held && left in c.claims && right in r.claims
        ensures !Scheduler.ClaimsConflict(left, right)
      {
        assert left == Scheduler.Claim(id, Scheduler.Write) && right == Scheduler.Claim(other, Scheduler.Write);
      }
    }
  }

  lemma HeldByOther(held: seq<Scheduler.Reservation>, other: string)
    requires held == [] || held == [Scheduler.ReservationFor(ItemFor(other).candidate, SHARED_CONTEXT)]
    ensures Scheduler.Total(held, "agents") <= 1
  {
    if held != [] {
      assert held[1..] == [] && held[0].quotaCosts == map["agents" := 1];
      assert Scheduler.Amount(held[0].quotaCosts, "agents") == 1;
    }
  }

  lemma Taken(c: Scheduler.Candidate, rest: seq<Scheduler.Candidate>, held: seq<Scheduler.Reservation>)
    requires Scheduler.BlockReasons(c, SHARED_CONTEXT, held) == []
    ensures Scheduler.Greedy([c] + rest, SHARED_CONTEXT, held).selected
         == [c] + Scheduler.Greedy(rest, SHARED_CONTEXT, held + [Scheduler.ReservationFor(c, SHARED_CONTEXT)]).selected
  {
    hide Scheduler.BlockReasons, Scheduler.EffectivePriority;
    assert ([c] + rest)[1..] == rest;
  }

  /** In either order the schedule selects both. */
  lemma BothAreChosen(order: seq<Scheduler.Candidate>, id: string, other: string)
    requires id in ["WP-1", "WP-2"] && other in ["WP-1", "WP-2"] && id != other
    requires order == [ItemFor(id).candidate, ItemFor(other).candidate]
    ensures Scheduler.Greedy(order, SHARED_CONTEXT, []).selected == order
  {
    hide Scheduler.BlockReasons, Scheduler.Greedy;
    var a, b := ItemFor(id).candidate, ItemFor(other).candidate;
    var held := [Scheduler.ReservationFor(a, SHARED_CONTEXT)];
    assert [] + held == held && order == [a] + [b] && [b] == [b] + [];
    FitsBeside(a, [], id, other);
    Taken(a, [b], []);
    FitsBeside(b, held, other, id);
    Taken(b, [], held);
    NoneLeft(held + [Scheduler.ReservationFor(b, SHARED_CONTEXT)]);
  }

  lemma NoneLeft(held: seq<Scheduler.Reservation>)
    ensures Scheduler.Greedy([], SHARED_CONTEXT, held).selected == []
  {
  }

  const CANDIDATES := [FIRST.candidate, SECOND.candidate]

  /** The candidates pass the scheduler's checks. */
  lemma CandidatesPass()
    ensures Scheduler.Check(CANDIDATES, [], SHARED_CONTEXT) == None
  {
    assert SHARED_CONTEXT.policy.limits.Keys == {"agents"};
    assert "REV"[0] in "REV" && !Blank("REV");
    assert Map(Scheduler.PackageId(), CANDIDATES) == ["WP-1", "WP-2"];
    assert "WP-1"[3] != "WP-2"[3];
    forall c | c in CANDIDATES ensures Scheduler.ValidCandidate(c) {
      assert c.quotaCosts.Keys == {"agents"};
    }
  }

  lemma BothAreSelected()
    ensures Scheduler.Plan(CANDIDATES, [], SHARED_CONTEXT).Success?
    ensures forall c :: c in CANDIDATES ==>
      c.workPackageId in Scheduler.Plan(CANDIDATES, [], SHARED_CONTEXT).value.selected
  {
    hide Scheduler.Check, Scheduler.Greedy, SortBy, Scheduler.Before, TotalPreorder, Sorted;
    CandidatesPass();
    var leq := Scheduler.ScheduleOrder(SHARED_CONTEXT);
    SchedulerProperties.OrderIsTotal(SHARED_CONTEXT);
    SortFacts(CANDIDATES, leq);
    var order := SortBy(CANDIDATES, leq);
    TwoInEitherOrder(order, FIRST.candidate, SECOND.candidate);
    if order[0] == FIRST.candidate {
      BothAreChosen(order, "WP-1", "WP-2");
    } else {
      BothAreChosen(order, "WP-2", "WP-1");
    }
    var selected := Scheduler.Greedy(order, SHARED_CONTEXT, []).selected;
    forall c | c in CANDIDATES
      ensures c.workPackageId in Scheduler.Plan(CANDIDATES, [], SHARED_CONTEXT).value.selected
    {
      MapMembers(Scheduler.PackageId(), selected, c);
    }
  }

  lemma TwoInEitherOrder<T>(order: seq<T>, a: T, b: T)
    requires multiset(order) == multiset([a, b]) && |order| == 2 && a != b
    ensures order == [a, b] || order == [b, a]
  {
    assert a in multiset([a, b]) && b in multiset([a, b]);
    assert a in order && b in order;
  }

  lemma BothReady()
    ensures PrepareAll(OPEN_SERVICES, [FIRST, SECOND]) == Some([READY, READY])
    ensures ReadyCandidates([FIRST, SECOND], [READY, READY]) == CANDIDATES
  {
    assert Prepare(OPEN_SERVICES, FIRST) == Some(READY) && Prepare(OPEN_SERVICES, SECOND) == Some(READY);
    OneMorePrepared([], [], FIRST);
    assert [] + [FIRST] == [FIRST] && [] + [READY] == [READY];
    OneMorePrepared([FIRST], [READY], SECOND);
    assert [FIRST] + [SECOND] == [FIRST, SECOND] && [READY] + [READY] == [READY, READY];
    assert Prepared(FIRST, READY) == FIRST.candidate && Prepared(SECOND, READY) == SECOND.candidate;
  }

  lemma OneMorePrepared(items: seq<WorkItem>, preps: seq<Preparation>, x: WorkItem)
    requires |items| == |preps| && PrepareAll(OPEN_SERVICES, items) == Some(preps)
    requires Prepare(OPEN_SERVICES, x) == Some(READY)
    ensures PrepareAll(OPEN_SERVICES, items + [x]) == Some(preps + [READY])
    ensures ReadyCandidates(items + [x], preps + [READY]) == ReadyCandidates(items, preps) + [Prepared(x, READY)]
  {
    hide Prepare;
    assert (items + [x])[..|items|] == items && (preps + [READY])[..|items|] == preps;
  }

  lemma BothPlanned(plan: Scheduler.SchedulePlan)
    requires Scheduler.Plan(CANDIDATES, [], SHARED_CONTEXT) == Success(plan)
    ensures PlanWork(SHARED_RUN, CANDIDATES, EventLogProperties.CONSTANT_PLATFORM) == Some(Planned(plan))
  {
    hide Scheduler.Plan;
  }

  lemma BothGoThrough(plan: Scheduler.SchedulePlan)
    requires Scheduler.Plan(CANDIDATES, [], SHARED_CONTEXT) == Success(plan)
    requires forall c :: c in CANDIDATES ==> c.workPackageId in plan.selected
    ensures RunAll(OPEN_SERVICES, [FIRST, SECOND], [READY, READY], Decisions(Planned(plan))) == Some([RAN, RAN])
  {
    hide Scheduler.Plan, IndexBy;
    SchedulerProperties.EntriesMatchSelection(CANDIDATES, [], SHARED_CONTEXT);
    var decisions := Decisions(Planned(plan));
    assert FIRST.candidate in CANDIDATES && SECOND.candidate in CANDIDATES;
    assert RunOne(OPEN_SERVICES, FIRST, READY, decisions) == Some(RAN);
    assert RunOne(OPEN_SERVICES, SECOND, READY, decisions) == Some(RAN);
    TwoRuns(decisions);
  }

  lemma TwoRuns(decisions: map<string, Scheduler.Entry>)
    requires RunOne(OPEN_SERVICES, FIRST, READY, decisions) == Some(RAN)
    requires RunOne(OPEN_SERVICES, SECOND, READY, decisions) == Some(RAN)
    ensures RunAll(OPEN_SERVICES, [FIRST, SECOND], [READY, READY], decisions) == Some([RAN, RAN])
  {
    hide RunOne;
    OneMoreRun([], [], [], FIRST, decisions);
    assert [] + [FIRST] == [FIRST] && [] + [READY] == [READY] && [] + [RAN] == [RAN];
    OneMoreRun([FIRST], [READY], [RAN], SECOND, decisions);
    assert [FIRST] + [SECOND] == [FIRST, SECOND] && [READY] + [READY] == [READY, READY] && [RAN] + [RAN] == [RAN, RAN];
  }

  lemma OneMoreRun(
    items: seq<WorkItem>, preps: seq<Preparation>, runs: seq<Execution>, x: WorkItem,
    decisions: map<string, Scheduler.Entry>)
    requires |items| == |preps| && RunAll(OPEN_SERVICES, items, preps, decisions) == Some(runs)
    requires RunOne(OPEN_SERVICES, x, READY, decisions) == Some(RAN)
    ensures RunAll(OPEN_SERVICES, items + [x], preps + [READY], decisions) == Some(runs + [RAN])
  {
    hide RunOne;
    assert (items + [x])[..|items|] == items && (preps + [READY])[..|items|] == preps;
  }

  lemma NothingToIntegrate()
    ensures Integrate(OPEN_SERVICES, None, Completions(SHARED_RUN.work, [RAN, RAN])) == Some(NotRequested)
  {
    hide Completions;
  }

  lemma WorkIsNamedApart()
    ensures NoDuplicates(Map(Package(), SHARED_RUN.work))
  {
    assert Map(Package(), SHARED_RUN.work) == ["WP-1", "WP-2"];
    assert "WP-1"[3] != "WP-2"[3];
  }

  lemma TwoDispatches()
    ensures !NoDuplicates(DispatchedIds(SHARED_RUN.work, [RAN, RAN]))
  {
    assert SHARED_RUN.work[1..] == [SECOND] && [RAN, RAN][1..] == [RAN];
    assert [SECOND][1..] == [] && [RAN][1..] == [];
    assert DispatchedIds([SECOND], [RAN]) == ["RUN-1"] + [];
    var ids := DispatchedIds(SHARED_RUN.work, [RAN, RAN]);
    assert ids[0] == ids[1];
  }

  /** Both runs go through. */
  lemma BothRun() returns (c: Course)
    ensures Pursue(OPEN_SERVICES, SHARED_RUN, EventLogProperties.CONSTANT_PLATFORM) == Some(c)
    ensures c.preps == [READY, READY] && c.runs == [RAN, RAN] && c.integration == NotRequested
  {
    hide Scheduler.Plan, PlanWork, PrepareAll, RunAll, Completions, Integrate, ReadyCandidates, Decisions, Pursue;
    var p := EventLogProperties.CONSTANT_PLATFORM;
    BothReady();
    BothAreSelected();
    var plan := Scheduler.Plan(CANDIDATES, [], SHARED_CONTEXT).value;
    BothPlanned(plan);
    BothGoThrough(plan);
    NothingToIntegrate();
    c := Course([READY, READY], Planned(plan), [RAN, RAN], NotRequested);
    WorkIsNamedApart();
    CourseSteps(OPEN_SERVICES, SHARED_RUN, p, c);
  }

  lemma ScenarioIsNamed(c: Course)
    requires |c.preps| == 2
    ensures ToManage(SHARED_RUN) && NamedCourse(SHARED_RUN, c)
  {
    hide Blank;
    LettersAreText();
  }

  lemma LettersAreText()
    ensures forall s: string :: s != "" && ('A' <= s[0] <= 'Z' || 'a' <= s[0] <= 'z') ==> !Blank(s)
  {
    forall s: string | s != "" && ('A' <= s[0] <= 'Z' || 'a' <= s[0] <= 'z') ensures !Blank(s) {
      EventLogProperties.TextIsNotBlank(s, 0);
    }
  }

  lemma BothAreAccepted()
    ensures StatusOf([READY, READY], [RAN, RAN], NotRequested) == Completed
  {
  }

  /** The orchestrator finishes this scenario as completed, with a trace that passes its own check, and the recovery
      planner refuses the history of that trace, whatever the time and the attempts. */
  lemma SharedRunIsRefused(situation: Recovery.Situation)
    requires situation.maxAttempts >= 1
    ensures var p := EventLogProperties.CONSTANT_PLATFORM;
      var t := Execute(OPEN_SERVICES, SHARED_RUN, p);
      && t.Some? && t.value.status == Completed
      && Recovery.Plan(p, t.value.events, [], situation) == Failure(Recovery.InvalidRuns)
  {
    hide Execute, Pursue, History, LogOf, Recovery.Plan, EventLogProperties.Digests, ToManage, NamedCourse, WorkTraces,
      DispatchedIds, NoDuplicates, StatusOf;
    var p := EventLogProperties.CONSTANT_PLATFORM;
    EventLogProperties.ConstantPlatformDigests();
    var c := BothRun();
    ScenarioIsNamed(c);
    TwoDispatches();
    BothAreAccepted();
    TracedIffPursued(OPEN_SERVICES, SHARED_RUN, p);
    var t := Execute(OPEN_SERVICES, SHARED_RUN, p).value;
    NothingToRecoverAfterARun(OPEN_SERVICES, SHARED_RUN, p, c, t.events, situation);
  }
}
