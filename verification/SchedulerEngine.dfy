/** The scheduler as it runs: loops over a quota table, a reservation list and an entry list that
    are updated candidate by candidate. */
module SchedulerEngine {
  import opened Orders
  import opened Collections
  import opened Scheduler
  import opened SchedulerProperties

  ghost function ConflictsBetween(lefts: seq<Claim>, rights: seq<Claim>, holder: string): set<string> {
    set left, right | left in lefts && right in rights && ClaimsConflict(left, right)
      :: HeldBy(left.domain, holder)
  }

  lemma ConflictSetStep(c: Candidate, held: seq<Reservation>, r: Reservation)
    ensures ConflictSet(c, held + [r])
         == ConflictSet(c, held) + ConflictsBetween(c.claims, r.claims, r.workPackageId)
  {
    hide HeldBy;
    var more := ConflictSet(c, held + [r]);
    forall s | s in ConflictSet(c, held) ensures s in more {
      var h, left, right :| h in held && left in c.claims && right in h.claims
        && ClaimsConflict(left, right) && s == HeldBy(left.domain, h.workPackageId);
      assert h in held + [r];
    }
    forall s | s in ConflictsBetween(c.claims, r.claims, r.workPackageId) ensures s in more {
      var left, right :| left in c.claims && right in r.claims && ClaimsConflict(left, right)
        && s == HeldBy(left.domain, r.workPackageId);
      assert r in held + [r];
    }
  }

  lemma ConflictsBetweenStep(lefts: seq<Claim>, left: Claim, rights: seq<Claim>, holder: string)
    ensures ConflictsBetween(lefts + [left], rights, holder)
         == ConflictsBetween(lefts, rights, holder) + ConflictsBetween([left], rights, holder)
  {
    hide HeldBy;
  }

  lemma ConflictsOfOneStep(left: Claim, rights: seq<Claim>, right: Claim, holder: string)
    ensures ConflictsBetween([left], rights + [right], holder)
         == ConflictsBetween([left], rights, holder)
            + (if ClaimsConflict(left, right) then {HeldBy(left.domain, holder)} else {})
  {
    hide HeldBy;
    if ClaimsConflict(left, right) {
      assert right in rights + [right] && left in [left];
    }
  }

  lemma NoConflictsYet(c: Candidate)
    ensures ConflictSet(c, []) == {}
  {
  }

  lemma NoClaimsYet(claims: seq<Claim>, holder: string)
    ensures ConflictsBetween([], claims, holder) == {}
    ensures forall left :: ConflictsBetween([left], [], holder) == {}
  {
  }

  /** The conflicts of all of a candidate's claims with those of one reservation. */
  method ConflictsWith(claims: seq<Claim>, r: Reservation) returns (reasons: set<string>)
    ensures reasons == ConflictsBetween(claims, r.claims, r.workPackageId)
  {
    hide HeldBy, ClaimsConflict, ConflictsBetween;
    reasons := {};
    NoClaimsYet(r.claims, r.workPackageId);
    assert claims[..0] == [];
    for j := 0 to |claims|
      invariant reasons == ConflictsBetween(claims[..j], r.claims, r.workPackageId)
    {
      var left := claims[j];
      assert r.claims[..0] == [];
      for k := 0 to |r.claims|
        invariant reasons == ConflictsBetween(claims[..j], r.claims, r.workPackageId)
                           + ConflictsBetween([left], r.claims[..k], r.workPackageId)
      {
        ConflictsOfOneStep(left, r.claims[..k], r.claims[k], r.workPackageId);
        assert r.claims[..k + 1] == r.claims[..k] + [r.claims[k]];
        if ClaimsConflict(left, r.claims[k]) {
          reasons := reasons + {HeldBy(left.domain, r.workPackageId)};
        }
      }
      ConflictsBetweenStep(claims[..j], left, r.claims, r.workPackageId);
      assert r.claims[..|r.claims|] == r.claims;
      assert claims[..j + 1] == claims[..j] + [left];
    }
    assert claims[..|claims|] == claims;
  }

  /** Collects the conflicts of a candidate with everything held, then sorts them. */
  method CollectConflicts(c: Candidate, held: seq<Reservation>) returns (sorted: seq<string>)
    ensures sorted == ConflictReasons(c, held)
  {
    hide ConflictsBetween, ConflictSet;
    var reasons: set<string> := {};
    NoConflictsYet(c);
    assert held[..0] == [];
    for i := 0 to |held|
      invariant reasons == ConflictSet(c, held[..i])
    {
      var more := ConflictsWith(c.claims, held[i]);
      ConflictSetStep(c, held[..i], held[i]);
      assert held[..i + 1] == held[..i] + [held[i]];
      reasons := reasons + more;
    }
    assert held[..|held|] == held;
    sorted := SortedSet(reasons);
  }

  /** `usage` records what `held` holds in every dimension. */
  ghost predicate Tracks(usage: map<string, int>, held: seq<Reservation>) {
    forall d: string :: Amount(usage, d) == Total(held, d)
  }

  /** Reads the running quota table; the table stands for the reservations it tracks. */
  method CollectQuota(c: Candidate, usage: map<string, int>, limits: map<string, int>, ghost held: seq<Reservation>)
    returns (reasons: seq<string>)
    requires Tracks(usage, held)
    ensures reasons == QuotaReasons(c, held, limits)
  {
    var dimensions := SortedSet(c.quotaCosts.Keys);
    reasons := [];
    for i := 0 to |dimensions|
      invariant reasons + QuotaReasonsOver(dimensions[i..], c.quotaCosts, held, limits)
             == QuotaReasons(c, held, limits)
    {
      var d := dimensions[i];
      assert dimensions[i..][0] == d && dimensions[i..][1..] == dimensions[i + 1..];
      assert Amount(usage, d) == Total(held, d);
      reasons := reasons + QuotaReason(d, Amount(usage, d), Amount(c.quotaCosts, d), limits);
    }
  }

  /** Charges one set of costs to the quota table, in whatever order the dictionary yields them. */
  method Charge(usage: map<string, int>, costs: map<string, int>) returns (charged: map<string, int>)
    ensures forall d: string :: Amount(charged, d) == Amount(usage, d) + Amount(costs, d)
  {
    charged := usage;
    var pending := costs.Keys;
    while pending != {}
      invariant pending <= costs.Keys
      invariant forall d: string ::
        Amount(charged, d) == Amount(usage, d) + (if d in pending then 0 else Amount(costs, d))
    {
      var d :| d in pending;
      charged := charged[d := Amount(charged, d) + costs[d]];
      pending := pending - {d};
    }
  }

  lemma TracksAfterCharge(
    usage: map<string, int>, charged: map<string, int>, held: seq<Reservation>, r: Reservation)
    requires Tracks(usage, held)
    requires forall d: string :: Amount(charged, d) == Amount(usage, d) + Amount(r.quotaCosts, d)
    ensures Tracks(charged, held + [r])
  {
    forall d: string ensures Amount(charged, d) == Total(held + [r], d) {
      TotalAppend(held, [r], d);
    }
  }

  lemma GreedyAdvance(cs: seq<Candidate>, i: nat, ctx: Context, held: seq<Reservation>)
    requires ctx.policy.agingWindowSeconds >= 1 && i < |cs|
    ensures var reasons := BlockReasons(cs[i], ctx, held);
      var priority := EffectivePriority(cs[i], ctx);
      Greedy(cs[i..], ctx, held) ==
        if reasons != [] then
          var rest := Greedy(cs[i + 1..], ctx, held);
          Outcome([Entry(cs[i].workPackageId, Deferred, Dedup(reasons), priority)] + rest.entries, rest.selected)
        else
          var rest := Greedy(cs[i + 1..], ctx, held + [ReservationFor(cs[i], ctx)]);
          Outcome([Entry(cs[i].workPackageId, Selected, ["eligible and capacity reserved"], priority)] + rest.entries,
                  [cs[i]] + rest.selected)
  {
    hide BlockReasons, EffectivePriority;
    assert cs[i..][0] == cs[i] && cs[i..][1..] == cs[i + 1..];
  }

  /** The admission loop over the ordered candidates. */
  method AdmitInOrder(
    ordered: seq<Candidate>, reservations: seq<Reservation>, ctx: Context, activeUsage: map<string, int>)
    returns (entries: seq<Entry>, selected: seq<string>)
    requires ctx.policy.agingWindowSeconds >= 1 && Tracks(activeUsage, reservations)
    ensures entries == Greedy(ordered, ctx, reservations).entries
    ensures selected == Map(PackageId(), Greedy(ordered, ctx, reservations).selected)
  {
    hide Greedy, DependencyReasons, RevisionReasons, ConflictReasons, QuotaReasons, EffectivePriority;
    var usage := activeUsage;
    var selectedReservations: seq<Reservation> := [];
    ghost var chosen: seq<Candidate> := [];
    entries, selected := [], [];
    assert reservations + selectedReservations == reservations && ordered[0..] == ordered;
    for i := 0 to |ordered|
      invariant Tracks(usage, reservations + selectedReservations)
      invariant selected == Map(PackageId(), chosen)
      invariant Greedy(ordered, ctx, reservations).entries
             == entries + Greedy(ordered[i..], ctx, reservations + selectedReservations).entries
      invariant Greedy(ordered, ctx, reservations).selected
             == chosen + Greedy(ordered[i..], ctx, reservations + selectedReservations).selected
    {
      var candidate := ordered[i];
      ghost var held := reservations + selectedReservations;
      GreedyAdvance(ordered, i, ctx, held);
      var reasons := DependencyReasons(candidate, ctx) + RevisionReasons(candidate, ctx);
      var conflicts := CollectConflicts(candidate, reservations + selectedReservations);
      var quota := CollectQuota(candidate, usage, ctx.policy.limits, held);
      reasons := reasons + conflicts + quota;
      assert reasons == BlockReasons(candidate, ctx, held);
      hide BlockReasons;
      var priority := EffectivePriority(candidate, ctx);
      if reasons != [] {
        entries := entries + [Entry(candidate.workPackageId, Deferred, Dedup(reasons), priority)];
      } else {
        MapAppend(PackageId(), chosen, [candidate]);
        selected := selected + [candidate.workPackageId];
        chosen := chosen + [candidate];
        entries := entries + [Entry(candidate.workPackageId, Selected, ["eligible and capacity reserved"], priority)];
        var reservation := ReservationFor(candidate, ctx);
        assert held + [reservation] == reservations + (selectedReservations + [reservation]);
        selectedReservations := selectedReservations + [reservation];
        ghost var before := usage;
        usage := Charge(usage, candidate.quotaCosts);
        TracksAfterCharge(before, usage, held, reservation);
      }
    }
    assert ordered[|ordered|..] == [];
    NothingGreedy(ctx, reservations + selectedReservations);
  }

  /** Capacity held by the active reservations, every limited dimension starting from zero. */
  method ActiveUsage(reservations: seq<Reservation>, limits: map<string, int>) returns (usage: map<string, int>)
    ensures Tracks(usage, reservations)
  {
    usage := map d | d in limits :: 0;
    for i := 0 to |reservations|
      invariant Tracks(usage, reservations[..i])
    {
      ghost var before := usage;
      usage := Charge(usage, reservations[i].quotaCosts);
      TracksAfterCharge(before, usage, reservations[..i], reservations[i]);
      assert reservations[..i + 1] == reservations[..i] + [reservations[i]];
    }
    assert reservations[..|reservations|] == reservations;
  }

  /** The whole decision: the plan the specification gives, or the same error. */
  method Schedule(
    candidates: seq<Candidate>, reservations: seq<Reservation>, policy: Policy,
    completedDependencies: seq<string>, currentRevisions: map<string, string>,
    stateRevision: string, now: int)
    returns (r: Result<SchedulePlan, SchedulerError>)
    ensures r == Plan(candidates, reservations,
                      Context(policy, (set d | d in completedDependencies), currentRevisions, stateRevision, now))
  {
    hide Greedy, SortBy;
    var ctx := Context(policy, (set d | d in completedDependencies), currentRevisions, stateRevision, now);
    var error := Check(candidates, reservations, ctx);
    if error.Some? {
      return Failure(error.value);
    }
    var usage := ActiveUsage(reservations, policy.limits);
    var ordered := SortBy(candidates, ScheduleOrder(ctx));
    var entries, selected := AdmitInOrder(ordered, reservations, ctx, usage);
    r := Success(SchedulePlan(now, stateRevision, entries, selected));
  }
}
