/** What every schedule plan guarantees: exact admission, safety, maximality, stability under
    re-planning, uniqueness, indifference to input order, and bounded ageing. */
module SchedulerProperties {
  import opened Orders
  import opened Collections
  import opened Text
  import opened Scheduler

  // ---------------------------------------------------------------- the order is total

  lemma OrderIsTotal(ctx: Context)
    requires ctx.policy.agingWindowSeconds >= 1
    ensures TotalPreorder(ScheduleOrder(ctx))
  {
    var leq := ScheduleOrder(ctx);
    forall a: Candidate, b: Candidate ensures leq(a, b) || leq(b, a) {
      StrTotal(a.workPackageId, b.workPackageId);
    }
    forall a: Candidate, b: Candidate, c: Candidate | leq(a, b) && leq(b, c) ensures leq(a, c) {
      if StrLeq(a.workPackageId, b.workPackageId) && StrLeq(b.workPackageId, c.workPackageId) {
        StrTransitive(a.workPackageId, b.workPackageId, c.workPackageId);
      }
    }
  }

  lemma OrderSeparates(candidates: seq<Candidate>, ctx: Context)
    requires ctx.policy.agingWindowSeconds >= 1
    requires NoDuplicates(Map(PackageId(), candidates))
    ensures NoTies(candidates, ScheduleOrder(ctx))
  {
    DistinctImages(PackageId(), candidates);
    var leq := ScheduleOrder(ctx);
    forall a, b | a in candidates && b in candidates && leq(a, b) && leq(b, a) ensures a == b {
      StrAntisymmetric(a.workPackageId, b.workPackageId);
      assert PackageId()(a) == PackageId()(b);
    }
  }

  // ---------------------------------------------------------------- reasons mean blocked

  lemma {:induction false} QuotaReasonsExact(
    dimensions: seq<string>, costs: map<string, int>, held: seq<Reservation>, limits: map<string, int>)
    requires forall d :: d in dimensions ==> d in costs
    ensures QuotaReasonsOver(dimensions, costs, held, limits) == []
       <==> forall d :: d in dimensions ==> d in limits && Total(held, d) + costs[d] <= limits[d]
  {
    if dimensions == [] {
    } else {
      QuotaReasonsExact(dimensions[1..], costs, held, limits);
      assert dimensions == [dimensions[0]] + dimensions[1..];
    }
  }

  lemma DependencyReasonsExact(c: Candidate, ctx: Context)
    ensures DependencyReasons(c, ctx) == [] <==> forall d :: d in c.dependencyIds ==> d in ctx.completed
  {
    hide StrLeq;
    var missing := set d | d in c.dependencyIds && d !in ctx.completed;
    SortedSetFacts(missing);
    assert |DependencyReasons(c, ctx)| == |missing|;
    if d :| d in c.dependencyIds && d !in ctx.completed {
      assert d in missing;
    }
  }

  lemma ConflictReasonsExact(c: Candidate, held: seq<Reservation>)
    ensures ConflictReasons(c, held) == [] <==> Compatible(c.claims, held)
  {
    hide StrLeq, HeldBy, SortedSet;
    var conflicts := ConflictSet(c, held);
    SortedSetFacts(conflicts);
    if !Compatible(c.claims, held) {
      var r, left, right :| r in held && left in c.claims && right in r.claims && ClaimsConflict(left, right);
      assert HeldBy(left.domain, r.workPackageId) in conflicts;
      assert HeldBy(left.domain, r.workPackageId) in SortedSet(conflicts);
    } else {
      assert conflicts == {};
    }
  }

  /** A candidate is deferred exactly when some declared obstacle stands in its way. */
  lemma BlockedIffReasons(c: Candidate, ctx: Context, held: seq<Reservation>)
    ensures BlockReasons(c, ctx, held) == [] <==> Admissible(c, ctx, held)
  {
    hide DependencyReasons, ConflictReasons, Compatible, QuotaReasonsOver, SortedSet;
    DependencyReasonsExact(c, ctx);
    ConflictReasonsExact(c, held);
    SortedSetFacts(c.quotaCosts.Keys);
    QuotaReasonsExact(SortedSet(c.quotaCosts.Keys), c.quotaCosts, held, ctx.policy.limits);
  }

  // ---------------------------------------------------------------- holding more never helps

  lemma {:induction false} TotalAppend(a: seq<Reservation>, b: seq<Reservation>, d: string)
    ensures Total(a + b, d) == Total(a, d) + Total(b, d)
  {
    if a == [] {
      assert a + b == b;
    } else {
      assert (a + b)[1..] == a[1..] + b;
      TotalAppend(a[1..], b, d);
    }
  }

  lemma {:induction false} TotalNonnegative(held: seq<Reservation>, d: string)
    requires forall r :: r in held ==> ValidCosts(r.quotaCosts)
    ensures Total(held, d) >= 0
  {
    if held == [] {
    } else {
      TotalNonnegative(held[1..], d);
    }
  }

  lemma AdmissibleMonotone(c: Candidate, ctx: Context, held: seq<Reservation>, more: seq<Reservation>)
    requires forall r :: r in more ==> ValidCosts(r.quotaCosts)
    requires Admissible(c, ctx, held + more)
    ensures Admissible(c, ctx, held)
  {
    forall d | d in c.quotaCosts ensures d in ctx.policy.limits
      && Total(held, d) + c.quotaCosts[d] <= ctx.policy.limits[d]
    {
      TotalAppend(held, more, d);
      TotalNonnegative(more, d);
    }
  }

  lemma PlannedFacts(cs: seq<Candidate>, ctx: Context)
    ensures |Planned(cs, ctx)| == |cs|
    ensures forall r :: r in Planned(cs, ctx) <==> exists c :: c in cs && r == ReservationFor(c, ctx)
    ensures cs != [] ==> Planned(cs, ctx) == [ReservationFor(cs[0], ctx)] + Planned(cs[1..], ctx)
  {
    var rs := Planned(cs, ctx);
    forall c | c in cs ensures ReservationFor(c, ctx) in rs {
      var i :| 0 <= i < |cs| && cs[i] == c;
      assert rs[i] == ReservationFor(c, ctx);
    }
  }

  // ---------------------------------------------------------------- the greedy pass

  /** One step of the pass: the head is taken exactly when it is admissible, and then held. */
  lemma GreedyStep(cs: seq<Candidate>, ctx: Context, held: seq<Reservation>)
    returns (taken: bool, held': seq<Reservation>, rest: Outcome)
    requires ctx.policy.agingWindowSeconds >= 1 && cs != []
    ensures taken <==> Admissible(cs[0], ctx, held)
    ensures held' == if taken then held + [ReservationFor(cs[0], ctx)] else held
    ensures rest == Greedy(cs[1..], ctx, held')
    ensures var o := Greedy(cs, ctx, held);
      && o.selected == (if taken then [cs[0]] else []) + rest.selected
      && |o.entries| == 1 + |rest.entries| && o.entries[1..] == rest.entries
      && o.entries[0].workPackageId == cs[0].workPackageId
      && (o.entries[0].decision == Selected <==> taken)
      && held + Planned(o.selected, ctx) == held' + Planned(rest.selected, ctx)
  {
    hide BlockReasons, Admissible, Planned, EffectivePriority, Dedup;
    BlockedIffReasons(cs[0], ctx, held);
    taken := BlockReasons(cs[0], ctx, held) == [];
    held' := if taken then held + [ReservationFor(cs[0], ctx)] else held;
    rest := Greedy(cs[1..], ctx, held');
    PlannedCons(cs[0], rest.selected, ctx, held);
    assert [] + rest.selected == rest.selected;
  }

  lemma PlannedCons(c: Candidate, cs: seq<Candidate>, ctx: Context, held: seq<Reservation>)
    ensures held + Planned([c] + cs, ctx) == held + [ReservationFor(c, ctx)] + Planned(cs, ctx)
  {
    PlannedFacts([c] + cs, ctx);
    assert ([c] + cs)[1..] == cs;
  }

  lemma {:induction false} GreedyEntries(cs: seq<Candidate>, ctx: Context, held: seq<Reservation>)
    requires ctx.policy.agingWindowSeconds >= 1
    ensures var o := Greedy(cs, ctx, held);
      && |o.entries| == |cs|
      && (forall i :: 0 <= i < |cs| ==> o.entries[i].workPackageId == cs[i].workPackageId)
      && (forall i :: 0 <= i < |cs| && o.entries[i].decision == Selected ==> cs[i] in o.selected)
      && (forall c :: c in o.selected ==>
            exists i :: 0 <= i < |cs| && cs[i] == c && o.entries[i].decision == Selected)
  {
    hide Greedy, Admissible, Planned;
    if cs == [] {
      NothingGreedy(ctx, held);
    } else {
      var o := Greedy(cs, ctx, held);
      var taken, held', rest := GreedyStep(cs, ctx, held);
      GreedyEntries(cs[1..], ctx, held');
      forall i | 0 <= i < |cs| ensures o.entries[i].workPackageId == cs[i].workPackageId
        && (o.entries[i].decision == Selected ==> cs[i] in o.selected)
      {
        if i > 0 {
          assert rest.entries[i - 1] == o.entries[i] && cs[1..][i - 1] == cs[i];
        }
      }
      forall c | c in o.selected ensures
        exists i :: 0 <= i < |cs| && cs[i] == c && o.entries[i].decision == Selected
      {
        if c in rest.selected {
          var i :| 0 <= i < |cs| - 1 && cs[1..][i] == c && rest.entries[i].decision == Selected;
          assert cs[i + 1] == c && o.entries[i + 1].decision == Selected;
        } else {
          assert cs[0] == c && o.entries[0].decision == Selected;
        }
      }
    }
  }

  lemma NothingGreedy(ctx: Context, held: seq<Reservation>)
    requires ctx.policy.agingWindowSeconds >= 1
    ensures Greedy([], ctx, held) == Outcome([], [])
  {
  }

  lemma NothingPlanned(ctx: Context)
    ensures Planned([], ctx) == []
  {
  }

  lemma PlannedPrefix(c: Candidate, rest: seq<Candidate>, ctx: Context, held: seq<Reservation>, i: nat)
    requires 0 < i <= 1 + |rest|
    ensures held + [ReservationFor(c, ctx)] + Planned(rest[..i - 1], ctx)
         == held + Planned(([c] + rest)[..i], ctx)
  {
    var all := ([c] + rest)[..i];
    PlannedFacts(all, ctx);
    assert all[1..] == rest[..i - 1];
  }

  /** Each selected candidate was admissible beside everything held when it was chosen. */
  lemma {:induction false} GreedyAdmits(cs: seq<Candidate>, ctx: Context, held: seq<Reservation>, i: nat)
    requires ctx.policy.agingWindowSeconds >= 1
    requires i < |Greedy(cs, ctx, held).selected|
    ensures var chosen := Greedy(cs, ctx, held).selected;
      Admissible(chosen[i], ctx, held + Planned(chosen[..i], ctx))
  {
    assert cs != [];
    hide Greedy, Admissible;
    var chosen := Greedy(cs, ctx, held).selected;
    var taken, held', rest := GreedyStep(cs, ctx, held);
    hide Planned;
    if !taken {
      assert chosen == rest.selected;
      GreedyAdmits(cs[1..], ctx, held, i);
    } else if i == 0 {
      assert held + Planned(chosen[..0], ctx) == held by {
        NothingPlanned(ctx);
      }
    } else {
      GreedyAdmits(cs[1..], ctx, held', i - 1);
      PlannedPrefix(cs[0], rest.selected, ctx, held, i);
      assert chosen == [cs[0]] + rest.selected;
    }
  }

  /** A deferred candidate still does not fit once the whole selection is held. */
  lemma {:induction false} GreedyDefers(cs: seq<Candidate>, ctx: Context, held: seq<Reservation>, i: nat)
    requires ctx.policy.agingWindowSeconds >= 1
    requires forall c :: c in cs ==> ValidCosts(c.quotaCosts)
    requires i < |cs| && i < |Greedy(cs, ctx, held).entries|
    requires Greedy(cs, ctx, held).entries[i].decision == Deferred
    ensures !Admissible(cs[i], ctx, held + Planned(Greedy(cs, ctx, held).selected, ctx))
  {
    var o := Greedy(cs, ctx, held);
    GreedyEntries(cs, ctx, held);
    var taken, held', rest := GreedyStep(cs, ctx, held);
    hide Greedy, Admissible;
    if i > 0 {
      assert rest.entries[i - 1] == o.entries[i];
      GreedyDefers(cs[1..], ctx, held', i - 1);
    } else if Admissible(cs[0], ctx, held + Planned(o.selected, ctx)) {
      PlannedFacts(o.selected, ctx);
      AdmissibleMonotone(cs[0], ctx, held, Planned(o.selected, ctx));
    }
  }

  /** Capacity never passes the larger of the limit and what was held already. */
  lemma {:induction false} GreedyUsage(cs: seq<Candidate>, ctx: Context, held: seq<Reservation>, d: string)
    requires ctx.policy.agingWindowSeconds >= 1 && d in ctx.policy.limits
    ensures Total(held + Planned(Greedy(cs, ctx, held).selected, ctx), d)
         <= Max(ctx.policy.limits[d], Total(held, d))
  {
    if cs == [] {
      assert held + Planned(Greedy(cs, ctx, held).selected, ctx) == held;
    } else {
      var taken, held', rest := GreedyStep(cs, ctx, held);
      hide Greedy, Compatible;
      GreedyUsage(cs[1..], ctx, held', d);
      TotalAppend(held, [ReservationFor(cs[0], ctx)], d);
    }
  }

  // ---------------------------------------------------------------- safety

  ghost predicate Accepted(candidates: seq<Candidate>, reservations: seq<Reservation>, ctx: Context) {
    Plan(candidates, reservations, ctx).Success?
  }

  ghost predicate NoConflict(a: seq<Claim>, b: seq<Claim>) {
    forall left, right :: left in a && right in b ==> !ClaimsConflict(left, right)
  }

  /** What acceptance by the input checks means, and what the plan then is. */
  lemma AcceptedFacts(candidates: seq<Candidate>, reservations: seq<Reservation>, ctx: Context)
    requires Accepted(candidates, reservations, ctx)
    ensures ctx.policy.agingWindowSeconds >= 1 && NoDuplicates(Map(PackageId(), candidates))
    ensures forall c :: c in candidates ==> ValidCosts(c.quotaCosts)
    ensures var plan := Plan(candidates, reservations, ctx).value;
      && plan.entries == Choose(candidates, reservations, ctx).entries
      && plan.selected == Map(PackageId(), Choose(candidates, reservations, ctx).selected)
  {
    hide Greedy, SortBy, Before, Blank, NoDuplicates, ValidReservation, OneProject, Choose;
  }

  lemma AdmittedClaims(c: Candidate, ctx: Context, held: seq<Reservation>, r: Reservation)
    requires Admissible(c, ctx, held) && r in held
    ensures NoConflict(c.claims, r.claims)
  {
    hide ClaimsConflict;
  }

  lemma NoConflictIsSymmetric(a: seq<Claim>, b: seq<Claim>)
    requires NoConflict(a, b)
    ensures NoConflict(b, a)
  {
  }

  lemma PlannedHolds(cs: seq<Candidate>, ctx: Context, j: nat)
    requires j < |cs|
    ensures ReservationFor(cs[j], ctx) in Planned(cs, ctx) && ReservationFor(cs[j], ctx).claims == cs[j].claims
  {
    MapMembers((c: Candidate) => ReservationFor(c, ctx), cs, cs[j]);
  }

  /** Each selected candidate is free of conflicts with those selected before it and with active work. */
  lemma SelectionHasNoConflicts(ordered: seq<Candidate>, ctx: Context, reservations: seq<Reservation>, i: nat)
    requires ctx.policy.agingWindowSeconds >= 1 && i < |Greedy(ordered, ctx, reservations).selected|
    ensures var chosen := Greedy(ordered, ctx, reservations).selected;
      && (forall j :: 0 <= j < i ==> NoConflict(chosen[i].claims, chosen[j].claims))
      && (forall r :: r in reservations ==> NoConflict(chosen[i].claims, r.claims))
  {
    hide Greedy, Admissible, NoConflict, Planned;
    var chosen := Greedy(ordered, ctx, reservations).selected;
    GreedyAdmits(ordered, ctx, reservations, i);
    var held := reservations + Planned(chosen[..i], ctx);
    forall j | 0 <= j < i ensures NoConflict(chosen[i].claims, chosen[j].claims) {
      PlannedHolds(chosen[..i], ctx, j);
      AdmittedClaims(chosen[i], ctx, held, ReservationFor(chosen[j], ctx));
    }
    forall r | r in reservations ensures NoConflict(chosen[i].claims, r.claims) {
      AdmittedClaims(chosen[i], ctx, held, r);
    }
  }

  /** Selected work is pairwise conflict-free, conflict-free with active work, fully quota-declared,
      dependency-complete and current; and capacity stays within the limits. */
  lemma PlanIsSafe(candidates: seq<Candidate>, reservations: seq<Reservation>, ctx: Context)
    requires Accepted(candidates, reservations, ctx)
    ensures ctx.policy.agingWindowSeconds >= 1
    ensures var chosen := Choose(candidates, reservations, ctx).selected;
      && (forall i, j :: 0 <= i < |chosen| && 0 <= j < |chosen| && i != j
            ==> NoConflict(chosen[i].claims, chosen[j].claims))
      && (forall i, r :: 0 <= i < |chosen| && r in reservations ==> NoConflict(chosen[i].claims, r.claims))
      && (forall c, d :: c in chosen && d in c.quotaCosts ==> d in ctx.policy.limits)
      && (forall c, d :: c in chosen && d in c.dependencyIds ==> d in ctx.completed)
      && (forall c :: c in chosen ==>
            c.workPackageId in ctx.revisions && ctx.revisions[c.workPackageId] == c.subjectRevision)
      && (forall d :: d in ctx.policy.limits ==>
            Total(reservations + Planned(chosen, ctx), d) <= Max(ctx.policy.limits[d], Total(reservations, d)))
  {
    hide Greedy, SortBy, NoConflict, Compatible, Total, Planned, Plan;
    AcceptedFacts(candidates, reservations, ctx);
    var ordered := SortBy(candidates, ScheduleOrder(ctx));
    var chosen := Choose(candidates, reservations, ctx).selected;
    forall i | 0 <= i < |chosen| ensures
      && (forall j :: 0 <= j < |chosen| && j < i ==> NoConflict(chosen[i].claims, chosen[j].claims)
                                                     && NoConflict(chosen[j].claims, chosen[i].claims))
      && (forall r :: r in reservations ==> NoConflict(chosen[i].claims, r.claims))
    {
      SelectionHasNoConflicts(ordered, ctx, reservations, i);
      forall j | 0 <= j < i ensures NoConflict(chosen[j].claims, chosen[i].claims) {
        NoConflictIsSymmetric(chosen[i].claims, chosen[j].claims);
      }
    }
    forall c | c in chosen ensures exists held :: Admissible(c, ctx, held) {
      var i :| 0 <= i < |chosen| && chosen[i] == c;
      GreedyAdmits(ordered, ctx, reservations, i);
    }
    forall d | d in ctx.policy.limits ensures
      Total(reservations + Planned(chosen, ctx), d) <= Max(ctx.policy.limits[d], Total(reservations, d))
    {
      GreedyUsage(ordered, ctx, reservations, d);
    }
  }

  // ---------------------------------------------------------------- maximality and stability

  /** Candidates of an accepted plan are told apart by their ids. */
  lemma IdTells(candidates: seq<Candidate>, cs: seq<Candidate>, c: Candidate)
    requires NoDuplicates(Map(PackageId(), candidates)) && c in candidates
    requires forall x :: x in cs ==> x in candidates
    ensures c.workPackageId in Map(PackageId(), cs) <==> c in cs
  {
    hide NoDuplicates;
    DistinctImages(PackageId(), candidates);
    var ids := Map(PackageId(), cs);
    if c in cs {
      MapMembers(PackageId(), cs, c);
    }
    if c.workPackageId in ids {
      var i :| 0 <= i < |ids| && ids[i] == c.workPackageId;
      assert PackageId()(cs[i]) == PackageId()(c);
    }
  }

  /** Every candidate is either selected or still blocked by the finished selection; never both. */
  lemma PlanIsMaximal(candidates: seq<Candidate>, reservations: seq<Reservation>, ctx: Context)
    requires Accepted(candidates, reservations, ctx)
    ensures ctx.policy.agingWindowSeconds >= 1
    ensures var chosen := Choose(candidates, reservations, ctx).selected;
      forall c :: c in candidates ==>
        && (c.workPackageId in Plan(candidates, reservations, ctx).value.selected <==> c in chosen)
        && (c !in chosen ==> !Admissible(c, ctx, reservations + Planned(chosen, ctx)))
  {
    hide Greedy, SortBy, Before, Admissible, Plan, Planned, NoDuplicates, Map, ValidCosts, Sorted, TotalPreorder;
    AcceptedFacts(candidates, reservations, ctx);
    ChosenAreCandidates(candidates, reservations, ctx);
    var chosen := Choose(candidates, reservations, ctx).selected;
    var ordered := SortBy(candidates, ScheduleOrder(ctx));
    OrderIsTotal(ctx);
    SortFacts(candidates, ScheduleOrder(ctx));
    GreedyEntries(ordered, ctx, reservations);
    forall c | c in candidates ensures
      && (c.workPackageId in Plan(candidates, reservations, ctx).value.selected <==> c in chosen)
      && (c !in chosen ==> !Admissible(c, ctx, reservations + Planned(chosen, ctx)))
    {
      IdTells(candidates, chosen, c);
      if c !in chosen {
        var i :| 0 <= i < |ordered| && ordered[i] == c;
        GreedyDefers(ordered, ctx, reservations, i);
      }
    }
  }

  lemma ChosenAreCandidates(candidates: seq<Candidate>, reservations: seq<Reservation>, ctx: Context)
    requires ctx.policy.agingWindowSeconds >= 1
    ensures forall c :: c in Choose(candidates, reservations, ctx).selected ==> c in candidates
  {
    var ordered := SortBy(candidates, ScheduleOrder(ctx));
    OrderIsTotal(ctx);
    SortFacts(candidates, ScheduleOrder(ctx));
    GreedyEntries(ordered, ctx, reservations);
  }

  lemma {:induction false} NothingAdmitted(cs: seq<Candidate>, ctx: Context, held: seq<Reservation>)
    requires ctx.policy.agingWindowSeconds >= 1
    requires forall c :: c in cs ==> !Admissible(c, ctx, held)
    ensures Greedy(cs, ctx, held).selected == []
  {
    if cs == [] {
    } else {
      BlockedIffReasons(cs[0], ctx, held);
      NothingAdmitted(cs[1..], ctx, held);
    }
  }

  lemma ReplanIsValid(
    candidates: seq<Candidate>, reservations: seq<Reservation>, ctx: Context,
    again: seq<Candidate>, chosen: seq<Candidate>)
    requires Check(candidates, reservations, ctx).None?
    requires NoDuplicates(Map(PackageId(), again))
    requires forall c :: c in again || c in chosen ==> c in candidates
    ensures Check(again, reservations + Planned(chosen, ctx), ctx).None?
  {
    var held := reservations + Planned(chosen, ctx);
    PlannedFacts(chosen, ctx);
    forall r | r in held ensures ValidReservation(r)
      && (r in reservations || exists c :: c in candidates && r.projectId == c.projectId)
    {
      if r !in reservations {
        var c :| c in chosen && r == ReservationFor(c, ctx);
        assert c in candidates;
      }
    }
  }

  /** Re-planning any of the deferred work beside the selection it was deferred for is accepted and
      selects nothing. */
  lemma PlanIsStable(
    candidates: seq<Candidate>, reservations: seq<Reservation>, ctx: Context, again: seq<Candidate>)
    requires Accepted(candidates, reservations, ctx)
    requires NoDuplicates(Map(PackageId(), again))
    requires forall c :: c in again ==>
      c in candidates && c.workPackageId !in Plan(candidates, reservations, ctx).value.selected
    ensures var held := reservations + Planned(Choose(candidates, reservations, ctx).selected, ctx);
      Accepted(again, held, ctx) && Plan(again, held, ctx).value.selected == []
  {
    assert Check(candidates, reservations, ctx).None? && ctx.policy.agingWindowSeconds >= 1;
    hide Greedy, SortBy, Before, Admissible, Check;
    var chosen := Choose(candidates, reservations, ctx).selected;
    var held := reservations + Planned(chosen, ctx);
    PlannedFacts(chosen, ctx);
    ChosenAreCandidates(candidates, reservations, ctx);
    ReplanIsValid(candidates, reservations, ctx, again, chosen);
    OrderIsTotal(ctx);
    SortFacts(again, ScheduleOrder(ctx));
    var ordered := SortBy(again, ScheduleOrder(ctx));
    PlanIsMaximal(candidates, reservations, ctx);
    forall c | c in ordered ensures !Admissible(c, ctx, held) {
      assert c in again;
      assert c in candidates;
    }
    NothingAdmitted(ordered, ctx, held);
  }

  // ---------------------------------------------------------------- uniqueness

  /** A choice over an ordered list in which each candidate is taken exactly when it is admissible
      beside what was held already and the taken candidates that come before it. */
  ghost predicate PriorityStable(cs: seq<Candidate>, ctx: Context, held: seq<Reservation>, picks: seq<bool>) {
    && |picks| == |cs|
    && forall i :: 0 <= i < |cs| ==>
         (picks[i] <==> Admissible(cs[i], ctx, held + Planned(Picked(cs[..i], picks[..i]), ctx)))
  }

  /** What is held before position `i + 1` is the same seen from the tail. */
  lemma HeldFromTail(cs: seq<Candidate>, ctx: Context, held: seq<Reservation>, picks: seq<bool>, i: nat)
    requires |cs| == |picks| && i < |cs| - 1
    ensures held + Planned(Picked(cs[..i + 1], picks[..i + 1]), ctx)
         == (if picks[0] then held + [ReservationFor(cs[0], ctx)] else held)
            + Planned(Picked(cs[1..][..i], picks[1..][..i]), ctx)
  {
    PickedHead(cs, picks, i + 1);
    var whole := Picked(cs[..i + 1], picks[..i + 1]);
    var tail := Picked(cs[1..][..i], picks[1..][..i]);
    hide Picked;
    PlannedFacts(whole, ctx);
    if picks[0] {
      assert whole[1..] == tail;
    } else {
      assert whole == tail;
    }
  }

  lemma StableTail(cs: seq<Candidate>, ctx: Context, held: seq<Reservation>, picks: seq<bool>)
    requires |cs| == |picks| && cs != []
    requires picks[0] <==> Admissible(cs[0], ctx, held)
    ensures PriorityStable(cs, ctx, held, picks)
       <==> PriorityStable(cs[1..], ctx, if picks[0] then held + [ReservationFor(cs[0], ctx)] else held, picks[1..])
  {
    var held' := if picks[0] then held + [ReservationFor(cs[0], ctx)] else held;
    assert held + Planned(Picked(cs[..0], picks[..0]), ctx) == held;
    hide Admissible, Picked, Planned;
    forall i | 0 <= i < |cs| - 1 ensures
      held + Planned(Picked(cs[..i + 1], picks[..i + 1]), ctx)
      == held' + Planned(Picked(cs[1..][..i], picks[1..][..i]), ctx)
    {
      HeldFromTail(cs, ctx, held, picks, i);
    }
    if PriorityStable(cs, ctx, held, picks) {
      forall i | 0 <= i < |cs| - 1 ensures
        picks[1..][i] <==> Admissible(cs[1..][i], ctx, held' + Planned(Picked(cs[1..][..i], picks[1..][..i]), ctx))
      {
        assert picks[i + 1] <==> Admissible(cs[i + 1], ctx, held + Planned(Picked(cs[..i + 1], picks[..i + 1]), ctx));
      }
    }
    if PriorityStable(cs[1..], ctx, held', picks[1..]) {
      forall i | 0 <= i < |cs| ensures
        picks[i] <==> Admissible(cs[i], ctx, held + Planned(Picked(cs[..i], picks[..i]), ctx))
      {
        if i > 0 {
          var k := i - 1;
          var before := Planned(Picked(cs[1..][..k], picks[1..][..k]), ctx);
          assert picks[1..][k] <==> Admissible(cs[1..][k], ctx, held' + before);
        }
      }
    }
  }

  ghost function PicksOf(o: Outcome): seq<bool> {
    Map((e: Entry) => e.decision == Selected, o.entries)
  }

  lemma PicksStep(o: Outcome, rest: Outcome)
    requires o.entries != [] && o.entries[1..] == rest.entries
    ensures PicksOf(o) == [o.entries[0].decision == Selected] + PicksOf(rest)
  {
  }

  /** The plan is the one and only priority-stable choice over the ordered candidates. */
  lemma {:induction false} PlanIsTheStableChoice(
    cs: seq<Candidate>, ctx: Context, held: seq<Reservation>, picks: seq<bool>)
    requires ctx.policy.agingWindowSeconds >= 1 && |picks| == |cs|
    ensures PriorityStable(cs, ctx, held, picks) <==> picks == PicksOf(Greedy(cs, ctx, held))
    ensures picks == PicksOf(Greedy(cs, ctx, held)) ==> Picked(cs, picks) == Greedy(cs, ctx, held).selected
  {
    hide Greedy, Admissible, PicksOf, Planned, PriorityStable, Picked;
    if cs == [] {
      NothingToChoose(ctx, held);
    } else {
      var o := Greedy(cs, ctx, held);
      var taken, held', rest := GreedyStep(cs, ctx, held);
      PicksStep(o, rest);
      PlanIsTheStableChoice(cs[1..], ctx, held', picks[1..]);
      HeadAndTail(picks, PicksOf(o));
      PickedCons(cs, picks);
      if picks[0] == taken {
        StableTail(cs, ctx, held, picks);
      } else {
        EmptyPrefixHeld(cs, ctx, held, picks);
      }
    }
  }

  lemma NothingToChoose(ctx: Context, held: seq<Reservation>)
    requires ctx.policy.agingWindowSeconds >= 1
    ensures PriorityStable([], ctx, held, []) && PicksOf(Greedy([], ctx, held)) == []
    ensures Picked<Candidate>([], []) == Greedy([], ctx, held).selected
  {
  }

  lemma HeadAndTail(a: seq<bool>, b: seq<bool>)
    requires a != [] && b != []
    ensures a == b <==> a[0] == b[0] && a[1..] == b[1..]
  {
    assert a == [a[0]] + a[1..] && b == [b[0]] + b[1..];
  }

  lemma PickedCons(cs: seq<Candidate>, picks: seq<bool>)
    requires |cs| == |picks| && cs != []
    ensures Picked(cs, picks) == (if picks[0] then [cs[0]] else []) + Picked(cs[1..], picks[1..])
  {
  }

  lemma EmptyPrefixHeld(cs: seq<Candidate>, ctx: Context, held: seq<Reservation>, picks: seq<bool>)
    requires |picks| == |cs| && cs != []
    ensures held + Planned(Picked(cs[..0], picks[..0]), ctx) == held
    ensures PriorityStable(cs, ctx, held, picks) ==> (picks[0] <==> Admissible(cs[0], ctx, held))
  {
    hide Admissible;
    assert held + Planned(Picked(cs[..0], picks[..0]), ctx) == held;
  }

  // ---------------------------------------------------------------- order independence

  lemma {:induction false} TotalIgnoresOrder(a: seq<Reservation>, b: seq<Reservation>, d: string)
    requires Permutation(a, b)
    ensures Total(a, d) == Total(b, d)
    decreases |a|
  {
    SamePermutation(a, b);
    if a == [] {
    } else {
      var i := PermutationStep(a, b);
      TotalIgnoresOrder(a[1..], Without(b, i), d);
      TotalAppend(b[..i], b[i + 1..], d);
      TotalAppend(b[..i] + [b[i]], b[i + 1..], d);
      TotalAppend(b[..i], [b[i]], d);
      assert b == b[..i] + [b[i]] + b[i + 1..];
    }
  }

  lemma {:induction false} QuotaReasonsIgnoreOrder(
    dimensions: seq<string>, costs: map<string, int>, a: seq<Reservation>, b: seq<Reservation>,
    limits: map<string, int>)
    requires Permutation(a, b)
    ensures QuotaReasonsOver(dimensions, costs, a, limits) == QuotaReasonsOver(dimensions, costs, b, limits)
  {
    if dimensions == [] {
    } else {
      TotalIgnoresOrder(a, b, dimensions[0]);
      QuotaReasonsIgnoreOrder(dimensions[1..], costs, a, b, limits);
    }
  }

  lemma {:induction false} GreedyIgnoresHeldOrder(
    cs: seq<Candidate>, ctx: Context, a: seq<Reservation>, b: seq<Reservation>)
    requires ctx.policy.agingWindowSeconds >= 1 && Permutation(a, b)
    ensures Greedy(cs, ctx, a) == Greedy(cs, ctx, b)
  {
    if cs == [] {
    } else {
      var c := cs[0];
      SamePermutation(a, b);
      assert ConflictSet(c, a) == ConflictSet(c, b);
      QuotaReasonsIgnoreOrder(SortedSet(c.quotaCosts.Keys), c.quotaCosts, a, b, ctx.policy.limits);
      var r := ReservationFor(c, ctx);
      GreedyIgnoresHeldOrder(cs[1..], ctx, a, b);
      GreedyIgnoresHeldOrder(cs[1..], ctx, a + [r], b + [r]);
    }
  }

  lemma CheckIgnoresOrder(
    candidates: seq<Candidate>, candidates': seq<Candidate>,
    reservations: seq<Reservation>, reservations': seq<Reservation>, ctx: Context)
    requires Permutation(candidates, candidates') && Permutation(reservations, reservations')
    ensures Check(candidates, reservations, ctx) == Check(candidates', reservations', ctx)
  {
    hide ValidPolicy, Blank, ValidCandidate, ValidReservation, NoDuplicates, Map, OneProject, Permutation;
    SameMembers(candidates, candidates');
    SameMembers(reservations, reservations');
    IdsPermuted(candidates, candidates');
    SameProjects(candidates, candidates', reservations, reservations');
  }

  lemma SameMembers<T>(xs: seq<T>, ys: seq<T>)
    requires Permutation(xs, ys)
    ensures forall x :: x in xs <==> x in ys
  {
    SamePermutation(xs, ys);
  }

  lemma IdsPermuted(candidates: seq<Candidate>, candidates': seq<Candidate>)
    requires Permutation(candidates, candidates')
    ensures NoDuplicates(Map(PackageId(), candidates)) <==> NoDuplicates(Map(PackageId(), candidates'))
  {
    hide NoDuplicates, Map;
    var ids, ids' := Map(PackageId(), candidates), Map(PackageId(), candidates');
    PermutationMap(PackageId(), candidates, candidates');
    if NoDuplicates(ids) { PermutationNoDuplicates(ids, ids'); }
    if NoDuplicates(ids') { PermutationNoDuplicates(ids', ids); }
  }

  lemma SameProjects(
    candidates: seq<Candidate>, candidates': seq<Candidate>,
    reservations: seq<Reservation>, reservations': seq<Reservation>)
    requires forall x :: x in candidates <==> x in candidates'
    requires forall x :: x in reservations <==> x in reservations'
    ensures OneProject(candidates, reservations) <==> OneProject(candidates', reservations')
  {
  }

  /** Presenting candidates, active reservations or completed dependencies in another order gives
      the identical plan, entry for entry and reason for reason, or the identical error. */
  lemma PlanIgnoresOrder(
    candidates: seq<Candidate>, candidates': seq<Candidate>,
    reservations: seq<Reservation>, reservations': seq<Reservation>,
    completed: seq<string>, completed': seq<string>, ctx: Context)
    requires Permutation(candidates, candidates') && Permutation(reservations, reservations')
    requires Permutation(completed, completed')
    ensures Plan(candidates, reservations, ctx.(completed := set d | d in completed))
         == Plan(candidates', reservations', ctx.(completed := set d | d in completed'))
  {
    SamePermutation(completed, completed');
    var c := ctx.(completed := set d | d in completed);
    assert c == ctx.(completed := set d | d in completed');
    CheckIgnoresOrder(candidates, candidates', reservations, reservations', c);
    if Check(candidates, reservations, c).None? {
      OrderIsTotal(c);
      OrderSeparates(candidates, c);
      SortIgnoresOrder(candidates, candidates', ScheduleOrder(c));
      GreedyIgnoresHeldOrder(SortBy(candidates, ScheduleOrder(c)), c, reservations, reservations');
    }
  }

  // ---------------------------------------------------------------- ageing

  lemma DivMonotone(a: nat, b: nat, w: int)
    requires a <= b && w >= 1
    ensures a / w <= b / w
  {
    assert a == w * (a / w) + a % w && b == w * (b / w) + b % w;
    var gap := a / w - b / w;
    assert w * (a / w) == w * (b / w) + w * gap;
    assert gap >= 1 ==> w * gap >= w;
  }

  lemma DivReaches(a: nat, k: nat, w: int)
    requires w >= 1 && a >= k * w
    ensures a / w >= k
  {
    assert a == w * (a / w) + a % w;
    var gap := k - a / w;
    assert k * w == w * (a / w) + w * gap;
    assert gap >= 1 ==> w * gap >= w;
  }

  /** Ageing lifts ordinary work by at most the boost, reaches the full boost once the wait is that
      many windows, never passes the critical path and never touches safety work. */
  lemma AgeingIsBounded(c: Candidate, ctx: Context)
    requires ValidPolicy(ctx.policy)
    ensures var p := EffectivePriority(c, ctx);
      var base := Rank(c.priorityClass);
      var boost := ctx.policy.maxAgingBoost;
      && (c.priorityClass == SafetyRecovery <==> p == 0)
      && (c.priorityClass != SafetyRecovery ==> Max(1, base - boost) <= p <= base)
      && ((c.priorityClass != SafetyRecovery
           && WaitedSeconds(c.queuedAt, ctx.now) >= boost * ctx.policy.agingWindowSeconds)
            ==> p == Max(1, base - boost))
  {
    var w := ctx.policy.agingWindowSeconds;
    var waited := WaitedSeconds(c.queuedAt, ctx.now);
    if waited >= ctx.policy.maxAgingBoost * w {
      DivReaches(waited, ctx.policy.maxAgingBoost, w);
    }
  }

  lemma EarlierWaitsLonger(a: Candidate, b: Candidate, ctx: Context)
    requires ctx.policy.agingWindowSeconds >= 1
    requires a.priorityClass == b.priorityClass && a.queuedAt <= b.queuedAt
    ensures EffectivePriority(a, ctx) <= EffectivePriority(b, ctx)
  {
    var wa, wb := WaitedSeconds(a.queuedAt, ctx.now), WaitedSeconds(b.queuedAt, ctx.now);
    assert wb <= wa by {
      if b.queuedAt < ctx.now {
        DivMonotone(ctx.now - b.queuedAt, ctx.now - a.queuedAt, 1_000_000);
      }
    }
    DivMonotone(wb, wa, ctx.policy.agingWindowSeconds);
  }

  ghost predicate QueuedEarlier(a: Candidate, b: Candidate) {
    a.priorityClass == b.priorityClass && a.userPriority == b.userPriority && a.queuedAt < b.queuedAt
  }

  /** Within one class and user priority, work queued earlier is always considered first. */
  lemma EarlierQueuedGoesFirst(candidates: seq<Candidate>, reservations: seq<Reservation>, ctx: Context)
    requires Accepted(candidates, reservations, ctx)
    ensures var entries := Plan(candidates, reservations, ctx).value.entries;
      forall a, b, i, j ::
        (a in candidates && b in candidates && QueuedEarlier(a, b) && 0 <= i < |entries| && 0 <= j < |entries|
         && entries[i].workPackageId == a.workPackageId && entries[j].workPackageId == b.workPackageId) ==> i < j
  {
    hide Greedy, SortBy, Plan, NoDuplicates, Before, TotalPreorder, Sorted, EffectivePriority, QueuedEarlier, Map,
      ScheduleOrder, StrLeq;
    AcceptedFacts(candidates, reservations, ctx);
    var leq := ScheduleOrder(ctx);
    var ordered := SortBy(candidates, leq);
    OrderIsTotal(ctx);
    SortFacts(candidates, leq);
    GreedyEntries(ordered, ctx, reservations);
    ChooseIsGreedy(candidates, reservations, ctx);
    var entries := Plan(candidates, reservations, ctx).value.entries;
    forall a, b, i, j |
      a in candidates && b in candidates && QueuedEarlier(a, b) && 0 <= i < |entries| && 0 <= j < |entries|
      && entries[i].workPackageId == a.workPackageId && entries[j].workPackageId == b.workPackageId
      ensures i < j
    {
      IdFixesCandidate(candidates, ordered[i], a);
      IdFixesCandidate(candidates, ordered[j], b);
      EarlierIsBefore(a, b, ctx);
      SortedBefore(ordered, leq, i, j);
    }
  }

  lemma ChooseIsGreedy(candidates: seq<Candidate>, reservations: seq<Reservation>, ctx: Context)
    requires ctx.policy.agingWindowSeconds >= 1
    ensures Choose(candidates, reservations, ctx) == Greedy(SortBy(candidates, ScheduleOrder(ctx)), ctx, reservations)
  {
    hide Greedy, SortBy;
  }

  /** Among candidates with distinct ids, the id fixes the candidate. */
  lemma IdFixesCandidate(candidates: seq<Candidate>, x: Candidate, y: Candidate)
    requires NoDuplicates(Map(PackageId(), candidates))
    requires x in candidates && y in candidates && x.workPackageId == y.workPackageId
    ensures x == y
  {
    hide NoDuplicates, Map;
    DistinctImages(PackageId(), candidates);
    assert PackageId()(x) == PackageId()(y);
  }

  /** In a sorted list what does not come after another comes before it. */
  lemma SortedBefore(ordered: seq<Candidate>, leq: (Candidate, Candidate) -> bool, i: nat, j: nat)
    requires Sorted(ordered, leq) && TotalPreorder(leq)
    requires i < |ordered| && j < |ordered| && !leq(ordered[j], ordered[i])
    ensures i < j
  {
    assert leq(ordered[i], ordered[i]);
  }

  lemma EarlierIsBefore(a: Candidate, b: Candidate, ctx: Context)
    requires ctx.policy.agingWindowSeconds >= 1 && QueuedEarlier(a, b)
    ensures !ScheduleOrder(ctx)(b, a)
  {
    hide EffectivePriority, StrLeq;
    EarlierWaitsLonger(a, b, ctx);
  }

  function EntryId(): Entry -> string {
    (e: Entry) => e.workPackageId
  }

  lemma SameIds(entries: seq<Entry>, ordered: seq<Candidate>, candidates: seq<Candidate>)
    requires |entries| == |ordered|
    requires forall i :: 0 <= i < |ordered| ==> entries[i].workPackageId == ordered[i].workPackageId
    requires Permutation(ordered, candidates) && NoDuplicates(Map(PackageId(), candidates))
    ensures Permutation(Map(EntryId(), entries), Map(PackageId(), candidates))
    ensures NoDuplicates(Map(EntryId(), entries))
  {
    assert Map(EntryId(), entries) == Map(PackageId(), ordered);
    PermutationMap(PackageId(), ordered, candidates);
    PermutationNoDuplicates(Map(PackageId(), candidates), Map(PackageId(), ordered));
  }

  /** A plan lists every candidate exactly once. */
  lemma PlanCoversCandidates(candidates: seq<Candidate>, reservations: seq<Reservation>, ctx: Context)
    requires Accepted(candidates, reservations, ctx)
    ensures var ids := Map(EntryId(), Plan(candidates, reservations, ctx).value.entries);
      Permutation(ids, Map(PackageId(), candidates)) && NoDuplicates(ids)
  {
    hide Greedy, SortBy, Before;
    var ordered := SortBy(candidates, ScheduleOrder(ctx));
    OrderIsTotal(ctx);
    SortFacts(candidates, ScheduleOrder(ctx));
    GreedyEntries(ordered, ctx, reservations);
    SameIds(Greedy(ordered, ctx, reservations).entries, ordered, candidates);
  }

  /** The entry of every candidate says selected exactly when the plan selects it, and the plan selects
      candidates only. */
  lemma EntriesMatchSelection(candidates: seq<Candidate>, reservations: seq<Reservation>, ctx: Context)
    requires Accepted(candidates, reservations, ctx)
    ensures var plan := Plan(candidates, reservations, ctx).value;
      var byId := IndexBy(plan.entries, EntryId());
      && (forall c :: c in candidates ==> c.workPackageId in byId)
      && (forall c :: c in candidates ==>
            (byId[c.workPackageId].decision == Selected <==> c.workPackageId in plan.selected))
      && (forall id :: id in plan.selected ==> exists c :: c in candidates && c.workPackageId == id)
  {
    hide Plan, IndexBy;
    var plan := Plan(candidates, reservations, ctx).value;
    forall c | c in candidates ensures c.workPackageId in IndexBy(plan.entries, EntryId())
      && (IndexBy(plan.entries, EntryId())[c.workPackageId].decision == Selected <==> c.workPackageId in plan.selected)
    {
      EntryFound(candidates, reservations, ctx, c);
    }
    SelectedAreCandidates(candidates, reservations, ctx);
  }

  lemma EntryFound(candidates: seq<Candidate>, reservations: seq<Reservation>, ctx: Context, c: Candidate)
    requires Accepted(candidates, reservations, ctx) && c in candidates
    ensures var plan := Plan(candidates, reservations, ctx).value;
      var byId := IndexBy(plan.entries, EntryId());
      c.workPackageId in byId && (byId[c.workPackageId].decision == Selected <==> c.workPackageId in plan.selected)
  {
    hide Plan, IndexBy, Map, NoDuplicates;
    var plan := Plan(candidates, reservations, ctx).value;
    var ids := Map(EntryId(), plan.entries);
    PlanCoversCandidates(candidates, reservations, ctx);
    SamePermutation(ids, Map(PackageId(), candidates));
    MapMembers(PackageId(), candidates, c);
    assert PackageId()(c) in ids;
    IndexFacts(plan.entries, EntryId());
    var e := IndexBy(plan.entries, EntryId())[c.workPackageId];
    assert EntryId()(e) == c.workPackageId;
    var i :| 0 <= i < |plan.entries| && plan.entries[i] == e;
    EntryMatches(candidates, reservations, ctx, c, i);
  }

  lemma SelectedAreCandidates(candidates: seq<Candidate>, reservations: seq<Reservation>, ctx: Context)
    requires Accepted(candidates, reservations, ctx)
    ensures forall id :: id in Plan(candidates, reservations, ctx).value.selected ==>
      exists c :: c in candidates && c.workPackageId == id
  {
    hide Plan, Choose;
    AcceptedFacts(candidates, reservations, ctx);
    ChosenAreCandidates(candidates, reservations, ctx);
    var selected := Plan(candidates, reservations, ctx).value.selected;
    var chosen := Choose(candidates, reservations, ctx).selected;
    forall id | id in selected ensures exists c :: c in candidates && c.workPackageId == id {
      var i :| 0 <= i < |selected| && selected[i] == id;
      assert chosen[i] in candidates && chosen[i].workPackageId == id;
    }
  }

  lemma EntryMatches(
    candidates: seq<Candidate>, reservations: seq<Reservation>, ctx: Context, c: Candidate, i: nat)
    requires Accepted(candidates, reservations, ctx) && c in candidates
    requires var entries := Plan(candidates, reservations, ctx).value.entries;
      i < |entries| && entries[i].workPackageId == c.workPackageId
    ensures var plan := Plan(candidates, reservations, ctx).value;
      plan.entries[i].decision == Selected <==> c.workPackageId in plan.selected
  {
    hide Greedy, SortBy, Before, ValidCandidate, Admissible;
    var ordered := SortBy(candidates, ScheduleOrder(ctx));
    var o := Choose(candidates, reservations, ctx);
    OrderIsTotal(ctx);
    SortFacts(candidates, ScheduleOrder(ctx));
    GreedyEntries(ordered, ctx, reservations);
    DistinctImages(PackageId(), candidates);
    assert ordered[i] in candidates && PackageId()(ordered[i]) == PackageId()(c);
    PlanIsMaximal(candidates, reservations, ctx);
    if c in o.selected {
      var j :| 0 <= j < |ordered| && ordered[j] == c && o.entries[j].decision == Selected;
      SortedIdsDistinct(candidates, ctx, i, j);
    }
  }

  lemma SortedIdsDistinct(candidates: seq<Candidate>, ctx: Context, i: nat, j: nat)
    requires ctx.policy.agingWindowSeconds >= 1 && NoDuplicates(Map(PackageId(), candidates))
    requires var ordered := SortBy(candidates, ScheduleOrder(ctx));
      i < |ordered| && j < |ordered| && ordered[i] == ordered[j]
    ensures i == j
  {
    hide SortBy, Before;
    OrderIsTotal(ctx);
    SortFacts(candidates, ScheduleOrder(ctx));
    DistinctImages(PackageId(), candidates);
    PermutationNoDuplicates(candidates, SortBy(candidates, ScheduleOrder(ctx)));
  }
}
