/** The conflict-aware scheduler: candidates are ordered by a total key and admitted one by one
    against what is already held. */
module Scheduler {
  import opened Orders
  import opened Collections
  import opened Text

  // ---------------------------------------------------------------- entities

  datatype Access = Read | Write | Exclusive

  datatype Claim = Claim(domain: string, access: Access)

  datatype PriorityClass =
    SafetyRecovery | CriticalPath | UserPriority | IntegrationBlocker | IntentValue
    | UncertaintyReduction | Normal

  datatype Candidate = Candidate(
    projectId: string, workPackageId: string, subjectRevision: string, adapterId: string,
    priorityClass: PriorityClass, userPriority: int, queuedAt: int,
    dependencyIds: seq<string>, claims: seq<Claim>, quotaCosts: map<string, int>)

  datatype Reservation = Reservation(
    reservationId: string, projectId: string, workPackageId: string, subjectRevision: string,
    claims: seq<Claim>, quotaCosts: map<string, int>)

  datatype Policy = Policy(limits: map<string, int>, agingWindowSeconds: int, maxAgingBoost: int)

  datatype Decision = Selected | Deferred

  datatype Entry = Entry(
    workPackageId: string, decision: Decision, reasons: seq<string>, effectivePriority: int)

  datatype SchedulePlan = SchedulePlan(
    generatedAt: int, stateRevision: string, entries: seq<Entry>, selected: seq<string>)

  datatype SchedulerError =
    InvalidPolicy | InvalidStateRevision | InvalidCandidate | InvalidReservation
    | DuplicateWorkPackage | MultipleProjects

  /** What one scheduling decision is made against; nothing here changes during the decision.
      Times are microseconds. */
  datatype Context = Context(
    policy: Policy, completed: set<string>, revisions: map<string, string>,
    stateRevision: string, now: int)

  // ---------------------------------------------------------------- validation

  predicate ValidPolicy(p: Policy) {
    && p.limits.Keys != {}
    && (forall d :: d in p.limits ==> d != "" && p.limits[d] >= 1)
    && p.agingWindowSeconds >= 1
    && 0 <= p.maxAgingBoost <= 5
  }

  predicate ValidCosts(costs: map<string, int>) {
    forall d :: d in costs ==> costs[d] >= 0
  }

  predicate ValidCandidate(c: Candidate) {
    && NoDuplicates(c.dependencyIds)
    && c.claims != []
    && (forall i, j :: 0 <= i < j < |c.claims| ==> c.claims[i].domain != c.claims[j].domain)
    && c.quotaCosts.Keys != {}
    && (forall d :: d in c.quotaCosts ==> d != "")
    && ValidCosts(c.quotaCosts)
  }

  predicate ValidReservation(r: Reservation) {
    r.claims != [] && ValidCosts(r.quotaCosts)
  }

  function PackageId(): Candidate -> string {
    (c: Candidate) => c.workPackageId
  }

  predicate OneProject(candidates: seq<Candidate>, reservations: seq<Reservation>) {
    && (forall a, b :: a in candidates && b in candidates ==> a.projectId == b.projectId)
    && (forall a, b :: a in candidates && b in reservations ==> a.projectId == b.projectId)
    && (forall a, b :: a in reservations && b in reservations ==> a.projectId == b.projectId)
  }

  // ---------------------------------------------------------------- priority

  predicate ClaimsConflict(left: Claim, right: Claim) {
    left.domain == right.domain && (left.access != Read || right.access != Read)
  }

  function Rank(c: PriorityClass): nat {
    match c
    case SafetyRecovery => 0
    case CriticalPath => 1
    case UserPriority => 2
    case IntegrationBlocker => 3
    case IntentValue => 4
    case UncertaintyReduction => 5
    case Normal => 6
  }

  function Min(a: int, b: int): int { if a <= b then a else b }

  function Max(a: int, b: int): int { if a >= b then a else b }

  /** Whole seconds, never negative, so the truncation never meets a negative wait. */
  function WaitedSeconds(queuedAt: int, now: int): nat {
    if now <= queuedAt then 0 else (now - queuedAt) / 1_000_000
  }

  function EffectivePriority(c: Candidate, ctx: Context): int
    requires ctx.policy.agingWindowSeconds >= 1
  {
    var base := Rank(c.priorityClass);
    if base == 0 then 0
    else
      var boost := Min(ctx.policy.maxAgingBoost,
                       WaitedSeconds(c.queuedAt, ctx.now) / ctx.policy.agingWindowSeconds);
      Max(1, base - boost)
  }

  /** The sort key: effective priority, then higher user priority, then queue time, then id. */
  predicate Before(a: Candidate, b: Candidate, ctx: Context)
    requires ctx.policy.agingWindowSeconds >= 1
  {
    var pa, pb := EffectivePriority(a, ctx), EffectivePriority(b, ctx);
    if pa != pb then pa < pb
    else if a.userPriority != b.userPriority then a.userPriority > b.userPriority
    else if a.queuedAt != b.queuedAt then a.queuedAt < b.queuedAt
    else StrLeq(a.workPackageId, b.workPackageId)
  }

  function ScheduleOrder(ctx: Context): (Candidate, Candidate) -> bool
    requires ctx.policy.agingWindowSeconds >= 1
  {
    (a: Candidate, b: Candidate) => Before(a, b, ctx)
  }

  // ---------------------------------------------------------------- what blocks a candidate

  function Amount(costs: map<string, int>, dimension: string): int {
    if dimension in costs then costs[dimension] else 0
  }

  /** Capacity held in one quota dimension. */
  function Total(held: seq<Reservation>, dimension: string): int {
    if held == [] then 0
    else Amount(held[0].quotaCosts, dimension) + Total(held[1..], dimension)
  }

  function DependencyReasons(c: Candidate, ctx: Context): seq<string> {
    Map((d: string) => "dependency incomplete: " + d,
        SortedSet(set d | d in c.dependencyIds && d !in ctx.completed))
  }

  function RevisionReasons(c: Candidate, ctx: Context): seq<string> {
    if c.workPackageId !in ctx.revisions then ["current subject revision is unknown"]
    else if ctx.revisions[c.workPackageId] != c.subjectRevision then ["subject revision is stale"]
    else []
  }

  function HeldBy(domain: string, holder: string): string {
    "conflict domain " + domain + " held by " + holder
  }

  function ConflictSet(c: Candidate, held: seq<Reservation>): set<string> {
    set r, left, right | r in held && left in c.claims && right in r.claims
      && ClaimsConflict(left, right) :: HeldBy(left.domain, r.workPackageId)
  }

  function ConflictReasons(c: Candidate, held: seq<Reservation>): seq<string> {
    SortedSet(ConflictSet(c, held))
  }

  function QuotaReason(dimension: string, used: int, amount: int, limits: map<string, int>): seq<string> {
    if dimension !in limits then ["unknown quota dimension: " + dimension]
    else if used + amount > limits[dimension] then ["quota exceeded: " + dimension]
    else []
  }

  function QuotaReasonsOver(
    dimensions: seq<string>, costs: map<string, int>, held: seq<Reservation>, limits: map<string, int>): seq<string>
  {
    if dimensions == [] then []
    else
      QuotaReason(dimensions[0], Total(held, dimensions[0]), Amount(costs, dimensions[0]), limits)
      + QuotaReasonsOver(dimensions[1..], costs, held, limits)
  }

  function QuotaReasons(c: Candidate, held: seq<Reservation>, limits: map<string, int>): seq<string> {
    QuotaReasonsOver(SortedSet(c.quotaCosts.Keys), c.quotaCosts, held, limits)
  }

  function BlockReasons(c: Candidate, ctx: Context, held: seq<Reservation>): seq<string> {
    DependencyReasons(c, ctx) + RevisionReasons(c, ctx) + ConflictReasons(c, held)
    + QuotaReasons(c, held, ctx.policy.limits)
  }

  /** A candidate can run beside what is held. */
  ghost predicate Admissible(c: Candidate, ctx: Context, held: seq<Reservation>) {
    && (forall d :: d in c.dependencyIds ==> d in ctx.completed)
    && c.workPackageId in ctx.revisions && ctx.revisions[c.workPackageId] == c.subjectRevision
    && Compatible(c.claims, held)
    && FitsQuota(c.quotaCosts, ctx.policy.limits, held)
  }

  ghost predicate Compatible(claims: seq<Claim>, held: seq<Reservation>) {
    forall r, left, right :: r in held && left in claims && right in r.claims
      ==> !ClaimsConflict(left, right)
  }

  ghost predicate FitsQuota(costs: map<string, int>, limits: map<string, int>, held: seq<Reservation>) {
    forall d :: d in costs ==> d in limits && Total(held, d) + costs[d] <= limits[d]
  }

  // ---------------------------------------------------------------- the plan

  function ReservationFor(c: Candidate, ctx: Context): Reservation {
    Reservation("planned:" + ctx.stateRevision + ":" + c.workPackageId, c.projectId,
                c.workPackageId, c.subjectRevision, c.claims, c.quotaCosts)
  }

  function Planned(cs: seq<Candidate>, ctx: Context): seq<Reservation> {
    Map((c: Candidate) => ReservationFor(c, ctx), cs)
  }

  datatype Outcome = Outcome(entries: seq<Entry>, selected: seq<Candidate>)

  /** Admit candidates in order; each admitted one is held from then on. */
  function Greedy(cs: seq<Candidate>, ctx: Context, held: seq<Reservation>): Outcome
    requires ctx.policy.agingWindowSeconds >= 1
  {
    if cs == [] then Outcome([], [])
    else
      var reasons := BlockReasons(cs[0], ctx, held);
      var priority := EffectivePriority(cs[0], ctx);
      if reasons != [] then
        var rest := Greedy(cs[1..], ctx, held);
        Outcome([Entry(cs[0].workPackageId, Deferred, Dedup(reasons), priority)] + rest.entries,
                rest.selected)
      else
        var rest := Greedy(cs[1..], ctx, held + [ReservationFor(cs[0], ctx)]);
        Outcome([Entry(cs[0].workPackageId, Selected, ["eligible and capacity reserved"], priority)]
                + rest.entries,
                [cs[0]] + rest.selected)
  }

  function Check(candidates: seq<Candidate>, reservations: seq<Reservation>, ctx: Context): Option<SchedulerError> {
    if !ValidPolicy(ctx.policy) then Some(InvalidPolicy)
    else if Blank(ctx.stateRevision) then Some(InvalidStateRevision)
    else if exists c :: c in candidates && !ValidCandidate(c) then Some(InvalidCandidate)
    else if exists r :: r in reservations && !ValidReservation(r) then Some(InvalidReservation)
    else if !NoDuplicates(Map(PackageId(), candidates)) then Some(DuplicateWorkPackage)
    else if !OneProject(candidates, reservations) then Some(MultipleProjects)
    else None
  }

  /** Candidates in scheduling order with the choices made over them. */
  function Choose(candidates: seq<Candidate>, reservations: seq<Reservation>, ctx: Context): Outcome
    requires ctx.policy.agingWindowSeconds >= 1
  {
    Greedy(SortBy(candidates, ScheduleOrder(ctx)), ctx, reservations)
  }

  function Plan(candidates: seq<Candidate>, reservations: seq<Reservation>, ctx: Context):
    Result<SchedulePlan, SchedulerError>
  {
    match Check(candidates, reservations, ctx)
    case Some(error) => Failure(error)
    case None =>
      var outcome := Choose(candidates, reservations, ctx);
      Success(SchedulePlan(ctx.now, ctx.stateRevision, outcome.entries,
                           Map(PackageId(), outcome.selected)))
  }
}
