/** A schedule plan read off the candidates, the reservations and the policy alone: the order of its entries, why each
    candidate is selected or deferred, and when a plan is refused. */
module ScheduleReports {
  import opened Orders
  import opened Collections
  import opened Text
  import opened Scheduler
  import opened SchedulerProperties

  // ---------------------------------------------------------------- priority and order

  /** The priority classes, the most urgent first. */
  const CLASSES := [
    SafetyRecovery, CriticalPath, UserPriority, IntegrationBlocker, IntentValue, UncertaintyReduction, Normal]

  /** A candidate has waited this many whole ageing windows, or is not queued yet. */
  ghost predicate WaitedWindows(c: Candidate, ctx: Context, k: nat) {
    if ctx.now <= c.queuedAt then k == 0
    else
      var window := ctx.policy.agingWindowSeconds * 1_000_000;
      k * window <= ctx.now - c.queuedAt < (k + 1) * window
  }

  ghost function Lifted(base: int, lift: int): int {
    if base == 0 then 0 else if base - lift < 1 then 1 else base - lift
  }

  /** Each window waited lifts a class by one, up to the boost, but never to the class of safety. */
  ghost predicate AgedTo(c: Candidate, ctx: Context, p: int) {
    exists base, k: nat :: 0 <= base < |CLASSES| && CLASSES[base] == c.priorityClass && WaitedWindows(c, ctx, k)
      && p == Lifted(base, if k <= ctx.policy.maxAgingBoost then k else ctx.policy.maxAgingBoost)
  }

  lemma WindowsOfSeconds(waited: nat, w: int, k: nat)
    requires w >= 1 && k == waited / 1_000_000 / w
    ensures k * (w * 1_000_000) <= waited < (k + 1) * (w * 1_000_000)
  {
    var s := waited / 1_000_000;
    assert s * 1_000_000 <= waited < (s + 1) * 1_000_000;
    assert k * w <= s < (k + 1) * w by { assert s == w * (s / w) + s % w; }
    Scaled(k * w, s);
    Scaled(s + 1, (k + 1) * w);
    assert k * w * 1_000_000 == k * (w * 1_000_000) && (k + 1) * w * 1_000_000 == (k + 1) * (w * 1_000_000);
  }

  lemma Scaled(a: int, b: int)
    requires a <= b
    ensures a * 1_000_000 <= b * 1_000_000
  {
  }

  lemma WindowsWaited(c: Candidate, ctx: Context)
    requires ctx.policy.agingWindowSeconds >= 1
    ensures WaitedWindows(c, ctx, WaitedSeconds(c.queuedAt, ctx.now) / ctx.policy.agingWindowSeconds)
  {
    var w := ctx.policy.agingWindowSeconds;
    if ctx.now > c.queuedAt {
      WindowsOfSeconds(ctx.now - c.queuedAt, w, WaitedSeconds(c.queuedAt, ctx.now) / w);
    }
  }

  lemma PriorityMeans(c: Candidate, ctx: Context)
    requires ValidPolicy(ctx.policy)
    ensures AgedTo(c, ctx, EffectivePriority(c, ctx))
  {
    hide WaitedWindows;
    var w := ctx.policy.agingWindowSeconds;
    var k := WaitedSeconds(c.queuedAt, ctx.now) / w;
    WindowsWaited(c, ctx);
    assert CLASSES[Rank(c.priorityClass)] == c.priorityClass;
  }

  /** The candidate with the smaller priority value goes first, then the one its user ranks higher, then the one
      queued earlier, then the one with the smaller id. */
  ghost predicate GoesBefore(a: Candidate, pa: int, b: Candidate, pb: int) {
    || pa < pb
    || (pa == pb && a.userPriority > b.userPriority)
    || (pa == pb && a.userPriority == b.userPriority && a.queuedAt < b.queuedAt)
    || (pa == pb && a.userPriority == b.userPriority && a.queuedAt == b.queuedAt
        && ReadsBefore(a.workPackageId, b.workPackageId))
  }

  lemma OrderMeans(a: Candidate, b: Candidate, ctx: Context)
    requires ctx.policy.agingWindowSeconds >= 1
    ensures Before(a, b, ctx) <==> GoesBefore(a, EffectivePriority(a, ctx), b, EffectivePriority(b, ctx))
  {
    hide EffectivePriority, StrLeq, ReadsBefore;
    StrLeqMeans(a.workPackageId, b.workPackageId);
  }

  // ---------------------------------------------------------------- what stands in the way of a candidate

  /** The candidate's claim and the other name one domain, and not both only read it. */
  ghost predicate Clash(left: Claim, right: Claim) {
    left.domain == right.domain && !(left.access == Read && right.access == Read)
  }

  /** The costs of a list, added up in one dimension. */
  ghost function Spent(costs: seq<map<string, int>>, d: string): int {
    if costs == [] then 0
    else
      var last := costs[|costs| - 1];
      Spent(costs[..|costs| - 1], d) + if d in last then last[d] else 0
  }

  function ReservedCosts(): Reservation -> map<string, int> {
    (r: Reservation) => r.quotaCosts
  }

  function CandidateCosts(): Candidate -> map<string, int> {
    (c: Candidate) => c.quotaCosts
  }

  /** What active work and the candidates taken so far spend. */
  ghost function SpentBeside(reservations: seq<Reservation>, taken: seq<Candidate>, d: string): int {
    Spent(Map(ReservedCosts(), reservations), d) + Spent(Map(CandidateCosts(), taken), d)
  }

  ghost predicate ClashesWith(c: Candidate, reservations: seq<Reservation>, domain: string, holder: string) {
    exists r, left, right :: r in reservations && left in c.claims && right in r.claims
      && Clash(left, right) && left.domain == domain && r.workPackageId == holder
  }

  /** Active work, or a candidate taken before, holds a claim that clashes with one of the candidate's. */
  ghost predicate HeldAgainst(
    c: Candidate, reservations: seq<Reservation>, taken: seq<Candidate>, domain: string, holder: string)
  {
    || ClashesWith(c, reservations, domain, holder)
    || (exists x, left, right :: x in taken && left in c.claims && right in x.claims
          && Clash(left, right) && left.domain == domain && x.workPackageId == holder)
  }

  /** The texts of everything that stands in the candidate's way. */
  ghost predicate Obstacle(
    reason: string, c: Candidate, ctx: Context, reservations: seq<Reservation>, taken: seq<Candidate>)
  {
    || (exists d :: d in c.dependencyIds && d !in ctx.completed && reason == "dependency incomplete: " + d)
    || (c.workPackageId !in ctx.revisions && reason == "current subject revision is unknown")
    || (c.workPackageId in ctx.revisions && ctx.revisions[c.workPackageId] != c.subjectRevision
        && reason == "subject revision is stale")
    || (exists domain, holder :: HeldAgainst(c, reservations, taken, domain, holder)
          && reason == "conflict domain " + domain + " held by " + holder)
    || (exists d :: d in c.quotaCosts && d !in ctx.policy.limits && reason == "unknown quota dimension: " + d)
    || (exists d :: d in c.quotaCosts && d in ctx.policy.limits && reason == "quota exceeded: " + d
          && SpentBeside(reservations, taken, d) + c.quotaCosts[d] > ctx.policy.limits[d])
  }

  lemma LastTotal(held: seq<Reservation>, d: string)
    requires held != []
    ensures var n := |held| - 1;
      Total(held, d) == Total(held[..n], d) + if d in held[n].quotaCosts then held[n].quotaCosts[d] else 0
  {
    var n := |held| - 1;
    assert held == held[..n] + [held[n]];
    TotalAppend(held[..n], [held[n]], d);
  }

  lemma LastCosts(held: seq<Reservation>)
    requires held != []
    ensures var n, costs := |held| - 1, Map(ReservedCosts(), held);
      |costs| == |held| && costs[n] == held[n].quotaCosts && costs[..n] == Map(ReservedCosts(), held[..n])
  {
  }

  lemma {:induction false} TotalIsSpent(held: seq<Reservation>, d: string)
    ensures Total(held, d) == Spent(Map(ReservedCosts(), held), d)
  {
    if held == [] {
    } else {
      var n := |held| - 1;
      TotalIsSpent(held[..n], d);
      LastTotal(held, d);
      LastCosts(held);
    }
  }

  lemma TotalBeside(reservations: seq<Reservation>, taken: seq<Candidate>, ctx: Context, d: string)
    ensures Total(reservations + Planned(taken, ctx), d) == SpentBeside(reservations, taken, d)
  {
    TotalAppend(reservations, Planned(taken, ctx), d);
    TotalIsSpent(reservations, d);
    TotalIsSpent(Planned(taken, ctx), d);
    assert Map(ReservedCosts(), Planned(taken, ctx)) == Map(CandidateCosts(), taken);
  }

  lemma DependencyTexts(c: Candidate, ctx: Context, reason: string)
    ensures reason in DependencyReasons(c, ctx) <==>
      exists d :: d in c.dependencyIds && d !in ctx.completed && reason == "dependency incomplete: " + d
  {
    hide StrLeq, SortedSet;
    var missing := set d | d in c.dependencyIds && d !in ctx.completed;
    SortedSetFacts(missing);
    var texts := DependencyReasons(c, ctx);
    if reason in texts {
      var k :| 0 <= k < |texts| && texts[k] == reason;
      assert SortedSet(missing)[k] in SortedSet(missing);
    }
    if d :| d in c.dependencyIds && d !in ctx.completed && reason == "dependency incomplete: " + d {
      assert d in SortedSet(missing);
      MapMembers((d: string) => "dependency incomplete: " + d, SortedSet(missing), d);
    }
  }

  lemma ConflictTexts(
    c: Candidate, ctx: Context, reservations: seq<Reservation>, taken: seq<Candidate>, reason: string)
    ensures reason in ConflictReasons(c, reservations + Planned(taken, ctx)) <==>
      exists domain, holder :: HeldAgainst(c, reservations, taken, domain, holder)
        && reason == "conflict domain " + domain + " held by " + holder
  {
    hide StrLeq, SortedSet, Planned;
    var held := reservations + Planned(taken, ctx);
    SortedSetFacts(ConflictSet(c, held));
    PlannedFacts(taken, ctx);
    if reason in ConflictSet(c, held) {
      var r, left, right :| r in held && left in c.claims && right in r.claims && ClaimsConflict(left, right)
        && reason == HeldBy(left.domain, r.workPackageId);
      assert HeldAgainst(c, reservations, taken, left.domain, r.workPackageId) by {
        HolderFound(c, ctx, reservations, taken, r, left, right);
      }
    }
    forall domain, holder | HeldAgainst(c, reservations, taken, domain, holder)
      ensures HeldBy(domain, holder) in ConflictSet(c, held)
    {
      HolderHolds(c, ctx, reservations, taken, domain, holder);
    }
  }

  lemma HolderFound(
    c: Candidate, ctx: Context, reservations: seq<Reservation>, taken: seq<Candidate>, r: Reservation, left: Claim,
    right: Claim)
    requires r in reservations + Planned(taken, ctx) && left in c.claims && right in r.claims
    requires ClaimsConflict(left, right)
    ensures HeldAgainst(c, reservations, taken, left.domain, r.workPackageId)
  {
    hide Planned;
    PlannedFacts(taken, ctx);
    assert Clash(left, right);
    if r !in reservations {
      var x :| x in taken && r == ReservationFor(x, ctx);
      assert right in x.claims;
    }
  }

  lemma HolderHolds(
    c: Candidate, ctx: Context, reservations: seq<Reservation>, taken: seq<Candidate>, domain: string, holder: string)
    requires HeldAgainst(c, reservations, taken, domain, holder)
    ensures HeldBy(domain, holder) in ConflictSet(c, reservations + Planned(taken, ctx))
  {
    hide Planned;
    PlannedFacts(taken, ctx);
    var held := reservations + Planned(taken, ctx);
    if ClashesWith(c, reservations, domain, holder) {
      var r, left, right :| r in reservations && left in c.claims && right in r.claims
        && Clash(left, right) && left.domain == domain && r.workPackageId == holder;
      assert r in held && ClaimsConflict(left, right);
    } else {
      var x, left, right :| x in taken && left in c.claims && right in x.claims && Clash(left, right)
        && left.domain == domain && x.workPackageId == holder;
      var r := ReservationFor(x, ctx);
      assert r in held && right in r.claims && ClaimsConflict(left, right);
    }
  }

  lemma {:induction false} QuotaTexts(
    dimensions: seq<string>, costs: map<string, int>, held: seq<Reservation>, limits: map<string, int>, reason: string)
    requires forall d :: d in dimensions ==> d in costs
    ensures reason in QuotaReasonsOver(dimensions, costs, held, limits) <==>
      exists d :: d in dimensions && reason in QuotaReason(d, Total(held, d), costs[d], limits)
  {
    hide QuotaReason;
    if dimensions == [] {
    } else {
      QuotaTexts(dimensions[1..], costs, held, limits, reason);
      assert dimensions == [dimensions[0]] + dimensions[1..];
    }
  }

  /** The reasons for deferring are exactly the obstacles. */
  lemma ReasonsAreObstacles(
    c: Candidate, ctx: Context, reservations: seq<Reservation>, taken: seq<Candidate>, reason: string)
    ensures reason in BlockReasons(c, ctx, reservations + Planned(taken, ctx))
      <==> Obstacle(reason, c, ctx, reservations, taken)
  {
    hide Total, Planned, SortedSet, DependencyReasons, ConflictReasons, HeldAgainst, QuotaReasonsOver, SpentBeside;
    var held := reservations + Planned(taken, ctx);
    DependencyTexts(c, ctx, reason);
    ConflictTexts(c, ctx, reservations, taken, reason);
    SortedSetFacts(c.quotaCosts.Keys);
    QuotaTexts(SortedSet(c.quotaCosts.Keys), c.quotaCosts, held, ctx.policy.limits, reason);
    forall d ensures Total(held, d) == SpentBeside(reservations, taken, d) {
      TotalBeside(reservations, taken, ctx, d);
    }
  }

  // ---------------------------------------------------------------- the order of the reasons

  /** Incomplete dependencies come first, then the revision, then conflicts, then quotas. */
  function Heading(reason: string): nat {
    if "dependency incomplete: " <= reason then 0
    else if reason in {"current subject revision is unknown", "subject revision is stale"} then 1
    else if "conflict domain " <= reason then 2
    else 3
  }

  /** Dependencies and conflicts are listed alphabetically. */
  ghost predicate ListedBefore(x: string, y: string) {
    Heading(x) < Heading(y) || (Heading(x) == Heading(y) && (Heading(x) in {0, 2} ==> ReadsBefore(x, y)))
  }

  ghost predicate InReasonOrder(reasons: seq<string>) {
    forall i, j :: 0 <= i < j < |reasons| ==> ListedBefore(reasons[i], reasons[j])
  }

  lemma HeadingOf(s: string)
    ensures Heading("dependency incomplete: " + s) == 0
    ensures Heading("conflict domain " + s) == 2
    ensures Heading("unknown quota dimension: " + s) == 3 && Heading("quota exceeded: " + s) == 3
    ensures Heading("current subject revision is unknown") == 1 && Heading("subject revision is stale") == 1
  {
    var a, b, c, d := "dependency incomplete: ", "conflict domain ", "unknown quota dimension: ", "quota exceeded: ";
    assert (b + s)[0] == 'c' && (b + s)[1] == 'o' && (c + s)[0] == 'u' && (d + s)[0] == 'q';
    assert a[0] == 'd' && b[0] == 'c' && b[1] == 'o';
    var u, v := "current subject revision is unknown", "subject revision is stale";
    assert u[0] == 'c' && u[1] == 'u' && v[0] == 's';
  }

  /** A common beginning does not change which text comes first. */
  lemma {:induction false} StrLeqBehind(prefix: string, a: string, b: string)
    requires StrLeq(a, b)
    ensures StrLeq(prefix + a, prefix + b)
  {
    if prefix == [] {
      assert prefix + a == a && prefix + b == b;
    } else {
      StrLeqBehind(prefix[1..], a, b);
      assert (prefix + a)[1..] == prefix[1..] + a && (prefix + b)[1..] == prefix[1..] + b;
    }
  }

  lemma AppendInOrder(xs: seq<string>, ys: seq<string>)
    requires InReasonOrder(xs) && InReasonOrder(ys)
    requires forall x, y :: x in xs && y in ys ==> Heading(x) < Heading(y)
    ensures InReasonOrder(xs + ys)
  {
    hide Heading, ReadsBefore;
    var all := xs + ys;
    forall i, j | 0 <= i < j < |all| ensures ListedBefore(all[i], all[j]) {
      if j < |xs| {
        assert all[i] == xs[i] && all[j] == xs[j];
      } else if i < |xs| {
        assert all[i] in xs && all[j] in ys;
      } else {
        assert all[i] == ys[i - |xs|] && all[j] == ys[j - |xs|];
      }
    }
  }

  lemma DependenciesInOrder(c: Candidate, ctx: Context)
    ensures InReasonOrder(DependencyReasons(c, ctx))
    ensures forall x :: x in DependencyReasons(c, ctx) ==> Heading(x) == 0
  {
    hide StrLeq, ReadsBefore, Heading, SortedSet;
    var missing := SortedSet(set d | d in c.dependencyIds && d !in ctx.completed);
    SortedSetFacts(set d | d in c.dependencyIds && d !in ctx.completed);
    var texts := DependencyReasons(c, ctx);
    forall k | 0 <= k < |texts| ensures texts[k] == "dependency incomplete: " + missing[k] && Heading(texts[k]) == 0 {
      HeadingOf(missing[k]);
    }
    forall i, j | 0 <= i < j < |texts| ensures ListedBefore(texts[i], texts[j]) {
      StrLeqBehind("dependency incomplete: ", missing[i], missing[j]);
      StrLeqMeans(texts[i], texts[j]);
    }
  }

  lemma ConflictsInOrder(c: Candidate, held: seq<Reservation>)
    ensures InReasonOrder(ConflictReasons(c, held))
    ensures forall x :: x in ConflictReasons(c, held) ==> Heading(x) == 2
  {
    hide StrLeq, ReadsBefore, Heading, SortedSet;
    SortedSetFacts(ConflictSet(c, held));
    var texts := ConflictReasons(c, held);
    forall x | x in texts ensures Heading(x) == 2 {
      var r, left, right :| r in held && left in c.claims && right in r.claims && ClaimsConflict(left, right)
        && x == HeldBy(left.domain, r.workPackageId);
      HeadingOf(left.domain + " held by " + r.workPackageId);
      assert x == "conflict domain " + (left.domain + " held by " + r.workPackageId);
    }
    forall i, j | 0 <= i < j < |texts| ensures ListedBefore(texts[i], texts[j]) {
      StrLeqMeans(texts[i], texts[j]);
    }
  }

  lemma {:induction false} QuotasComeLast(
    dimensions: seq<string>, costs: map<string, int>, held: seq<Reservation>, limits: map<string, int>)
    ensures forall x :: x in QuotaReasonsOver(dimensions, costs, held, limits) ==> Heading(x) == 3
  {
    hide Heading;
    if dimensions == [] {
    } else {
      HeadingOf(dimensions[0]);
      QuotasComeLast(dimensions[1..], costs, held, limits);
    }
  }

  lemma OneHeading(xs: seq<string>, heading: nat)
    requires forall x :: x in xs ==> Heading(x) == heading
    requires heading != 0 && heading != 2
    ensures InReasonOrder(xs)
  {
    hide Heading, ReadsBefore;
  }

  lemma RevisionInOrder(c: Candidate, ctx: Context)
    ensures forall x :: x in RevisionReasons(c, ctx) ==> Heading(x) == 1
  {
    hide Heading;
    HeadingOf("");
  }

  lemma BlockReasonsInOrder(c: Candidate, ctx: Context, held: seq<Reservation>)
    ensures InReasonOrder(BlockReasons(c, ctx, held))
  {
    hide Heading, ReadsBefore, DependencyReasons, RevisionReasons, ConflictReasons, QuotaReasonsOver, SortedSet,
      InReasonOrder;
    var a, b, x := DependencyReasons(c, ctx), RevisionReasons(c, ctx), ConflictReasons(c, held);
    var y := QuotaReasons(c, held, ctx.policy.limits);
    DependenciesInOrder(c, ctx);
    RevisionInOrder(c, ctx);
    ConflictsInOrder(c, held);
    QuotasComeLast(SortedSet(c.quotaCosts.Keys), c.quotaCosts, held, ctx.policy.limits);
    OneHeading(b, 1);
    OneHeading(y, 3);
    AppendInOrder(a, b);
    AppendInOrder(a + b, x);
    AppendInOrder(a + b + x, y);
  }

  /** Leaving out repetitions keeps the order. */
  lemma {:induction false} DedupInOrder(xs: seq<string>)
    requires InReasonOrder(xs)
    ensures InReasonOrder(Dedup(xs))
  {
    hide ListedBefore;
    if xs == [] {
    } else {
      var n := |xs| - 1;
      DedupInOrder(xs[..n]);
      var front := Dedup(xs[..n]);
      forall i | 0 <= i < |front| ensures ListedBefore(front[i], xs[n]) || xs[n] in xs[..n] {
        assert front[i] in front;
        assert front[i] in xs[..n];
        var k :| 0 <= k < n && xs[..n][k] == front[i];
        assert ListedBefore(xs[k], xs[n]);
      }
    }
  }

  // ---------------------------------------------------------------- the entries

  /** The candidates whose entries before the i-th say selected, in order. */
  ghost function Taken(ordered: seq<Candidate>, entries: seq<Entry>, i: nat): seq<Candidate>
    requires i <= |ordered| == |entries|
  {
    if i == 0 then []
    else Taken(ordered, entries, i - 1) + if entries[i - 1].decision == Selected then [ordered[i - 1]] else []
  }

  lemma {:induction false} TakenHead(ordered: seq<Candidate>, entries: seq<Entry>, i: nat)
    requires 0 < i <= |ordered| == |entries|
    ensures Taken(ordered, entries, i)
         == (if entries[0].decision == Selected then [ordered[0]] else []) + Taken(ordered[1..], entries[1..], i - 1)
  {
    if i > 1 {
      TakenHead(ordered, entries, i - 1);
    }
  }

  /** The entry of a candidate beside what is held. */
  function EntryFor(c: Candidate, ctx: Context, held: seq<Reservation>): Entry
    requires ctx.policy.agingWindowSeconds >= 1
  {
    var reasons := BlockReasons(c, ctx, held);
    if reasons == [] then
      Entry(c.workPackageId, Selected, ["eligible and capacity reserved"], EffectivePriority(c, ctx))
    else Entry(c.workPackageId, Deferred, Dedup(reasons), EffectivePriority(c, ctx))
  }

  /** The first entry, and what the others are. */
  lemma GreedySplits(cs: seq<Candidate>, ctx: Context, held: seq<Reservation>)
    requires ctx.policy.agingWindowSeconds >= 1 && cs != []
    ensures var o := Greedy(cs, ctx, held);
      var taken := |o.entries| > 0 && o.entries[0].decision == Selected;
      var rest := Greedy(cs[1..], ctx, if taken then held + [ReservationFor(cs[0], ctx)] else held);
      && |o.entries| == |cs| && |rest.entries| == |cs| - 1
      && o.entries[0] == EntryFor(cs[0], ctx, held) && o.entries[1..] == rest.entries
  {
    hide BlockReasons, EffectivePriority, Dedup;
    GreedyEntries(cs, ctx, held);
  }

  lemma {:induction false} GreedyEntryAt(cs: seq<Candidate>, ctx: Context, held: seq<Reservation>, i: nat)
    requires ctx.policy.agingWindowSeconds >= 1 && i < |cs|
    ensures var o := Greedy(cs, ctx, held);
      |o.entries| == |cs| && o.entries[i] == EntryFor(cs[i], ctx, held + Planned(Taken(cs, o.entries, i), ctx))
  {
    hide Planned, EntryFor, Greedy;
    var o := Greedy(cs, ctx, held);
    GreedySplits(cs, ctx, held);
    if i == 0 {
      NothingPlanned(ctx);
      assert held + [] == held;
    } else {
      var taken := o.entries[0].decision == Selected;
      var held' := if taken then held + [ReservationFor(cs[0], ctx)] else held;
      var later := Taken(cs[1..], o.entries[1..], i - 1);
      GreedyEntryAt(cs[1..], ctx, held', i - 1);
      TakenHead(cs, o.entries, i);
      hide Taken;
      PlannedCons(cs[0], later, ctx, held);
      assert [] + later == later;
      assert cs[i] == cs[1..][i - 1] && o.entries[i] == o.entries[1..][i - 1];
    }
  }

  lemma {:induction false} GreedySelectsTaken(cs: seq<Candidate>, ctx: Context, held: seq<Reservation>)
    requires ctx.policy.agingWindowSeconds >= 1
    ensures var o := Greedy(cs, ctx, held);
      |o.entries| == |cs| && o.selected == Taken(cs, o.entries, |cs|)
  {
    hide BlockReasons, Planned, EffectivePriority, Dedup;
    var o := Greedy(cs, ctx, held);
    GreedyEntries(cs, ctx, held);
    if cs != [] {
      var taken := BlockReasons(cs[0], ctx, held) == [];
      var held' := if taken then held + [ReservationFor(cs[0], ctx)] else held;
      GreedySelectsTaken(cs[1..], ctx, held');
      assert o.entries[1..] == Greedy(cs[1..], ctx, held').entries;
      TakenHead(cs, o.entries, |cs|);
    }
  }

  /** What an entry says of its candidate, beside active work and the candidates taken before it. */
  ghost predicate EntryIsFor(
    e: Entry, c: Candidate, ctx: Context, reservations: seq<Reservation>, taken: seq<Candidate>)
  {
    && e.workPackageId == c.workPackageId && AgedTo(c, ctx, e.effectivePriority)
    && (e.decision == Selected ==>
          && e.reasons == ["eligible and capacity reserved"]
          && forall reason :: !Obstacle(reason, c, ctx, reservations, taken))
    && (e.decision == Deferred ==>
          && e.reasons != [] && NoDuplicates(e.reasons) && InReasonOrder(e.reasons)
          && forall reason :: reason in e.reasons <==> Obstacle(reason, c, ctx, reservations, taken))
  }

  lemma {:induction false} DedupIsDistinct(xs: seq<string>)
    ensures NoDuplicates(Dedup(xs))
  {
    if xs == [] {
    } else {
      var front := xs[..|xs| - 1];
      DedupIsDistinct(front);
      LastDistinct(Dedup(front), xs[|xs| - 1]);
    }
  }

  lemma EntrySays(c: Candidate, ctx: Context, reservations: seq<Reservation>, taken: seq<Candidate>)
    requires ValidPolicy(ctx.policy)
    ensures EntryIsFor(EntryFor(c, ctx, reservations + Planned(taken, ctx)), c, ctx, reservations, taken)
  {
    hide BlockReasons, Planned, EffectivePriority, Dedup, Obstacle, AgedTo, InReasonOrder;
    var reasons := BlockReasons(c, ctx, reservations + Planned(taken, ctx));
    BlockReasonsInOrder(c, ctx, reservations + Planned(taken, ctx));
    DedupInOrder(reasons);
    PriorityMeans(c, ctx);
    DedupIsDistinct(reasons);
    forall reason ensures reason in reasons <==> Obstacle(reason, c, ctx, reservations, taken) {
      ReasonsAreObstacles(c, ctx, reservations, taken, reason);
    }
    if reasons != [] {
      assert reasons[0] in reasons;
    }
  }

  /** An accepted plan names its time and state revision; its entries are about the candidates in scheduling order,
      each says exactly what stands in its candidate's way beside active work and those selected before it, and the
      selection lists the selected ones in that order. */
  lemma PlanReads(candidates: seq<Candidate>, reservations: seq<Reservation>, ctx: Context)
    returns (ordered: seq<Candidate>)
    requires Accepted(candidates, reservations, ctx)
    ensures var plan := Plan(candidates, reservations, ctx).value;
      && plan.generatedAt == ctx.now && plan.stateRevision == ctx.stateRevision
      && multiset(ordered) == multiset(candidates) && |ordered| == |plan.entries|
      && (forall i :: 0 <= i < |ordered| ==>
            EntryIsFor(plan.entries[i], ordered[i], ctx, reservations, Taken(ordered, plan.entries, i)))
      && (forall i, j :: 0 <= i < j < |ordered| ==>
            GoesBefore(ordered[i], plan.entries[i].effectivePriority, ordered[j], plan.entries[j].effectivePriority))
      && plan.selected == Map(PackageId(), Taken(ordered, plan.entries, |ordered|))
  {
    hide Greedy, SortBy, Plan, EffectivePriority, EntryIsFor, EntryFor, TotalPreorder, Map, ScheduleOrder,
      GoesBefore, Sorted, Choose, Planned;
    AcceptedFacts(candidates, reservations, ctx);
    AcceptedPlan(candidates, reservations, ctx);
    ordered := SortBy(candidates, ScheduleOrder(ctx));
    OrderIsTotal(ctx);
    SortFacts(candidates, ScheduleOrder(ctx));
    ChooseIsGreedy(candidates, reservations, ctx);
    GreedySelectsTaken(ordered, ctx, reservations);
    var entries := Plan(candidates, reservations, ctx).value.entries;
    forall i | 0 <= i < |ordered| ensures
      && EntryIsFor(entries[i], ordered[i], ctx, reservations, Taken(ordered, entries, i))
      && entries[i].effectivePriority == EffectivePriority(ordered[i], ctx)
    {
      GreedyEntryAt(ordered, ctx, reservations, i);
      EntrySays(ordered[i], ctx, reservations, Taken(ordered, entries, i));
      EntryPriority(ordered[i], ctx, reservations + Planned(Taken(ordered, entries, i), ctx));
    }
    forall i, j | 0 <= i < j < |ordered| ensures
      GoesBefore(ordered[i], entries[i].effectivePriority, ordered[j], entries[j].effectivePriority)
    {
      SortedGoesBefore(ordered, ctx, i, j);
    }
  }

  lemma EntryPriority(c: Candidate, ctx: Context, held: seq<Reservation>)
    requires ctx.policy.agingWindowSeconds >= 1
    ensures EntryFor(c, ctx, held).effectivePriority == EffectivePriority(c, ctx)
  {
    hide BlockReasons, EffectivePriority, Dedup;
  }

  lemma SortedGoesBefore(ordered: seq<Candidate>, ctx: Context, i: nat, j: nat)
    requires ctx.policy.agingWindowSeconds >= 1 && Sorted(ordered, ScheduleOrder(ctx)) && i < j < |ordered|
    ensures GoesBefore(ordered[i], EffectivePriority(ordered[i], ctx), ordered[j], EffectivePriority(ordered[j], ctx))
  {
    hide Before, EffectivePriority, GoesBefore;
    assert ScheduleOrder(ctx)(ordered[i], ordered[j]);
    OrderMeans(ordered[i], ordered[j], ctx);
  }

  lemma AcceptedPlan(candidates: seq<Candidate>, reservations: seq<Reservation>, ctx: Context)
    requires Accepted(candidates, reservations, ctx)
    ensures ValidPolicy(ctx.policy)
    ensures var plan := Plan(candidates, reservations, ctx).value;
      plan.generatedAt == ctx.now && plan.stateRevision == ctx.stateRevision
  {
    hide Choose, Blank, NoDuplicates, ValidReservation, ValidCandidate, OneProject;
  }

  // ---------------------------------------------------------------- which plans are refused

  /** Every dimension has a name and room, ageing has a window, and lifts by at most five. */
  ghost predicate SoundPolicy(p: Policy) {
    && |p.limits| > 0 && (forall d :: d in p.limits ==> |d| > 0 && p.limits[d] > 0)
    && p.agingWindowSeconds > 0 && p.maxAgingBoost in {0, 1, 2, 3, 4, 5}
  }

  ghost predicate SoundCandidate(c: Candidate) {
    && (forall i, j :: 0 <= i < j < |c.dependencyIds| ==> c.dependencyIds[i] != c.dependencyIds[j])
    && |c.claims| > 0 && |c.quotaCosts| > 0
    && (forall i, j :: 0 <= i < j < |c.claims| ==> c.claims[i].domain != c.claims[j].domain)
    && (forall d :: d in c.quotaCosts ==> |d| > 0 && 0 <= c.quotaCosts[d])
  }

  ghost predicate SoundReservation(r: Reservation) {
    |r.claims| > 0 && forall d :: d in r.quotaCosts ==> 0 <= r.quotaCosts[d]
  }

  /** Everything scheduled or active belongs to one project. */
  ghost predicate OneProjectOnly(candidates: seq<Candidate>, reservations: seq<Reservation>) {
    exists project :: AllBelongTo(candidates, reservations, project)
  }

  ghost predicate AllBelongTo(candidates: seq<Candidate>, reservations: seq<Reservation>, project: string) {
    && (forall i :: 0 <= i < |candidates| ==> candidates[i].projectId == project)
    && (forall i :: 0 <= i < |reservations| ==> reservations[i].projectId == project)
  }

  ghost predicate SoundWork(candidates: seq<Candidate>) {
    forall i :: 0 <= i < |candidates| ==> SoundCandidate(candidates[i])
  }

  ghost predicate SoundActive(reservations: seq<Reservation>) {
    forall i :: 0 <= i < |reservations| ==> SoundReservation(reservations[i])
  }

  ghost predicate DistinctPackages(candidates: seq<Candidate>) {
    forall i, j :: 0 <= i < j < |candidates| ==> candidates[i].workPackageId != candidates[j].workPackageId
  }

  lemma SoundPolicyIff(p: Policy)
    ensures SoundPolicy(p) <==> ValidPolicy(p)
  {
    assert |p.limits| == |p.limits.Keys|;
  }

  lemma SoundCandidateIff(c: Candidate)
    ensures SoundCandidate(c) <==> ValidCandidate(c)
  {
    assert |c.quotaCosts| == |c.quotaCosts.Keys|;
  }

  lemma OneProjectIff(candidates: seq<Candidate>, reservations: seq<Reservation>)
    ensures OneProjectOnly(candidates, reservations) <==> OneProject(candidates, reservations)
  {
    if OneProject(candidates, reservations) {
      var project := if candidates != [] then candidates[0].projectId
                     else if reservations != [] then reservations[0].projectId else "";
      forall i | 0 <= i < |candidates| ensures candidates[i].projectId == project {
        assert candidates[i] in candidates && candidates[0] in candidates;
      }
      forall i | 0 <= i < |reservations| ensures reservations[i].projectId == project {
        assert reservations[i] in reservations && reservations[0] in reservations;
        if candidates != [] {
          assert candidates[0] in candidates;
        }
      }
      assert AllBelongTo(candidates, reservations, project);
    }
  }

  /** The policy is looked at first, then the state revision, the candidates, the reservations, the identity of the
      candidates, and last the projects; what passes is planned. */
  lemma RefusedPlanIff(candidates: seq<Candidate>, reservations: seq<Reservation>, ctx: Context)
    ensures var policy, revision := SoundPolicy(ctx.policy), !Blank(ctx.stateRevision);
      var work, active, distinct := SoundWork(candidates), SoundActive(reservations), DistinctPackages(candidates);
      match Plan(candidates, reservations, ctx)
      case Failure(InvalidPolicy) => !policy
      case Failure(InvalidStateRevision) => policy && !revision
      case Failure(InvalidCandidate) => policy && revision && !work
      case Failure(InvalidReservation) => policy && revision && work && !active
      case Failure(DuplicateWorkPackage) => policy && revision && work && active && !distinct
      case Failure(MultipleProjects) =>
        policy && revision && work && active && distinct && !OneProjectOnly(candidates, reservations)
      case Success(_) =>
        policy && revision && work && active && distinct && OneProjectOnly(candidates, reservations)
  {
    SoundPolicyIff(ctx.policy);
    OneProjectIff(candidates, reservations);
    SoundWorkIff(candidates);
    SoundActiveIff(reservations);
    hide Choose, Blank, ValidReservation, ValidCandidate, SoundWork, SoundActive, DistinctPackages, NoDuplicates, Map,
      OneProject, OneProjectOnly, ValidPolicy, SoundPolicy;
  }

  lemma SoundWorkIff(candidates: seq<Candidate>)
    ensures SoundWork(candidates) <==> !exists c :: c in candidates && !ValidCandidate(c)
    ensures DistinctPackages(candidates) <==> NoDuplicates(Map(PackageId(), candidates))
  {
    forall i | 0 <= i < |candidates|
      ensures candidates[i] in candidates && (SoundCandidate(candidates[i]) <==> ValidCandidate(candidates[i]))
    {
      SoundCandidateIff(candidates[i]);
    }
    hide ValidCandidate, SoundCandidate;
    assert forall i :: 0 <= i < |candidates| ==> Map(PackageId(), candidates)[i] == candidates[i].workPackageId;
  }

  lemma SoundActiveIff(reservations: seq<Reservation>)
    ensures SoundActive(reservations) <==> !exists r :: r in reservations && !ValidReservation(r)
  {
    forall i | 0 <= i < |reservations|
      ensures reservations[i] in reservations
      ensures SoundReservation(reservations[i]) <==> ValidReservation(reservations[i])
    {
    }
    hide ValidReservation, SoundReservation;
  }
}
