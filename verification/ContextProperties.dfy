/** What every compiled context guarantees: exactly one item speaks for a claim, nothing is lost,
    nothing undisclosed is sent, the pack is the first feasible one, and input order is irrelevant. */
module ContextProperties {
  import opened Orders
  import opened Collections
  import opened ContextCompiler

  // ---------------------------------------------------------------- orders

  function PrecedenceOrder(): (Item, Item) -> bool {
    (x: Item, y: Item) => Precedes(x, y)
  }

  lemma PrecedenceIsTotal()
    ensures TotalPreorder(PrecedenceOrder())
  {
    var leq := PrecedenceOrder();
    forall x: Item, y: Item ensures leq(x, y) || leq(y, x) {
      StrTotal(x.id, y.id);
      StrTotal(x.createdAt, y.createdAt);
    }
    forall x: Item, y: Item, z: Item | leq(x, y) && leq(y, z) ensures leq(x, z) {
      PrecedesTransitive(x, y, z);
    }
  }

  lemma PrecedesTransitive(x: Item, y: Item, z: Item)
    requires Precedes(x, y) && Precedes(y, z)
    ensures Precedes(x, z)
  {
    if Authority(x.sourceType) == Authority(z.sourceType) {
      if x.createdAt == y.createdAt == z.createdAt {
        StrTransitive(z.id, y.id, x.id);
      } else {
        StrTotal(x.createdAt, x.createdAt);
        StrTotal(z.createdAt, z.createdAt);
        StrTransitive(z.createdAt, y.createdAt, x.createdAt);
        if x.createdAt == z.createdAt {
          StrAntisymmetric(x.createdAt, y.createdAt);
        }
      }
    }
  }

  lemma PrecedesTied(x: Item, y: Item)
    requires Precedes(x, y) && Precedes(y, x)
    ensures x.id == y.id
  {
    if x.createdAt != y.createdAt {
      StrAntisymmetric(x.createdAt, y.createdAt);
    }
    StrAntisymmetric(x.id, y.id);
  }

  lemma PackOrderIsTotal(priority: seq<Kind>)
    ensures TotalPreorder(PackOrder(priority))
    ensures forall a, b :: PackOrder(priority)(a, b) && PackOrder(priority)(b, a) ==> a.id == b.id
  {
    var leq := PackOrder(priority);
    hide KindIndex;
    forall a: Item, b: Item ensures leq(a, b) || leq(b, a) {
      StrTotal(a.id, b.id);
    }
    forall a: Item, b: Item, c: Item | leq(a, b) && leq(b, c) ensures leq(a, c) {
      if StrLeq(a.id, b.id) && StrLeq(b.id, c.id) {
        StrTransitive(a.id, b.id, c.id);
      }
    }
    forall a: Item, b: Item | leq(a, b) && leq(b, a) ensures a.id == b.id {
      StrAntisymmetric(a.id, b.id);
    }
  }

  lemma ExclusionOrderIsTotal()
    ensures TotalPreorder(ExclusionOrder())
  {
    var leq := ExclusionOrder();
    forall a: Exclusion, b: Exclusion ensures leq(a, b) || leq(b, a) {
      StrTotal(a.itemId, b.itemId);
    }
    forall a: Exclusion, b: Exclusion, c: Exclusion | leq(a, b) && leq(b, c) ensures leq(a, c) {
      StrTransitive(a.itemId, b.itemId, c.itemId);
    }
  }

  // ---------------------------------------------------------------- who speaks for a claim

  lemma WinnersAgree(eligible: seq<Item>, x: Item, y: Item)
    requires x in eligible && y in eligible && x.claimKey == y.claimKey
    requires Wins(eligible, x) && Wins(eligible, y)
    ensures x.id == y.id
  {
    PrecedesTied(x, y);
  }

  function OfClaim(claimKey: string): Item -> bool {
    (x: Item) => x.claimKey == claimKey
  }

  // ---------------------------------------------------------------- what is selected

  ghost predicate Compiled(candidates: seq<Item>, q: Request) {
    Compile(candidates, q).Success?
  }

  lemma SelectionFacts(candidates: seq<Item>, q: Request)
    requires NoDuplicates(Map(ItemId(), candidates))
    ensures var eligible := Eligible(candidates, q);
      var selection := Selection(candidates, q);
      && NoDuplicates(selection)
      && (forall x :: x in selection ==> x in candidates && x in eligible && Wins(eligible, x))
  {
    var eligible := Eligible(candidates, q);
    var winners := Filter(eligible, WinsIn(eligible));
    DistinctImages(ItemId(), candidates);
    FilterNoDuplicates(candidates, Passes(q));
    FilterNoDuplicates(eligible, WinsIn(eligible));
    PackOrderIsTotal(q.recipe.kindPriority);
    SortFacts(winners, PackOrder(q.recipe.kindPriority));
    var resolved := Resolved(eligible, q.recipe.kindPriority);
    PermutationNoDuplicates(winners, resolved);
    PickedFacts(resolved, Pack(resolved, q.recipe.maxItems, q.recipe.maxBytes, q.json.size));
  }

  /** The levels of sensitivity, the most open first. */
  const LEVELS := [Public, Internal, Confidential, Restricted, Secret]

  ghost predicate AtMost(level: Sensitivity, ceiling: Sensitivity) {
    exists i, j :: 0 <= i <= j < |LEVELS| && LEVELS[i] == level && LEVELS[j] == ceiling
  }

  /** The item is for everyone, or for something the run is or has. */
  ghost predicate For(declared: seq<string>, active: set<string>) {
    |declared| > 0 ==> exists k :: 0 <= k < |declared| && declared[k] in active
  }

  ghost predicate InScope(x: Item, run: Run) {
    && x.projectId == run.projectId && For(x.roles, {run.role})
    && For(x.entityIds, set e | e in run.entityIds) && For(x.modes, set m | m in run.modes)
    && For(x.stages, match run.stage case Some(stage) => {stage} case None => {})
  }

  /** A current grant names the item, the run, its role and its project. */
  ghost predicate Named(x: Item, q: Request) {
    exists k :: 0 <= k < |q.grants| && x.id in q.grants[k].itemIds && q.run.runId in q.grants[k].runIds
      && q.grants[k].recipientRole == q.run.role && q.grants[k].projectId == q.run.projectId
      && q.now <= q.grants[k].expiresAt
  }

  /** Within the recipe's kinds, sources and ceiling, within the run's scope, current, and, from confidential
      up, named by a current grant to this very run and role. */
  ghost predicate Disclosable(x: Item, q: Request) {
    && x.kind in q.recipe.allowedKinds && x.sourceType in q.recipe.allowedSources
    && AtMost(x.sensitivity, q.recipe.maxSensitivity) && InScope(x, q.run)
    && (match x.expiresAt case Some(end) => q.now <= end case None => true)
    && (AtMost(Confidential, x.sensitivity) ==> Named(x, q))
  }

  lemma LevelMeans(a: Sensitivity, b: Sensitivity)
    ensures AtMost(a, b) <==> Rank(a) <= Rank(b)
  {
    assert LEVELS[Rank(a)] == a && LEVELS[Rank(b)] == b;
    forall i | 0 <= i < |LEVELS| ensures Rank(LEVELS[i]) == i {
    }
  }

  lemma OverlapMeans(declared: seq<string>, active: seq<string>)
    ensures Overlaps(declared, active) <==> For(declared, set x | x in active)
  {
    if k :| 0 <= k < |declared| && declared[k] in active {
      assert declared[k] in declared;
    }
  }

  lemma ScopeMeans(x: Item, run: Run)
    ensures ScopeMatches(x, run) <==> InScope(x, run)
  {
    hide Overlaps, For;
    var stages := if run.stage.Some? then [run.stage.value] else [];
    OverlapMeans(x.entityIds, run.entityIds);
    OverlapMeans(x.stages, stages);
    OverlapMeans(x.modes, run.modes);
    OverlapMeans(x.roles, [run.role]);
    assert (set r | r in [run.role]) == {run.role};
    assert (set s | s in stages) == match run.stage case Some(stage) => {stage} case None => {};
  }

  lemma GrantMeans(x: Item, q: Request)
    ensures HasGrant(x, q.run, q.grants, q.now) <==> Named(x, q)
  {
    if HasGrant(x, q.run, q.grants, q.now) {
      var g :| g in q.grants && Grants(g, x, q.run, q.now);
      var k :| 0 <= k < |q.grants| && q.grants[k] == g;
    }
    if Named(x, q) {
      var k :| 0 <= k < |q.grants| && x.id in q.grants[k].itemIds && q.run.runId in q.grants[k].runIds
        && q.grants[k].recipientRole == q.run.role && q.grants[k].projectId == q.run.projectId
        && q.now <= q.grants[k].expiresAt;
      assert q.grants[k] in q.grants && Grants(q.grants[k], x, q.run, q.now);
    }
  }

  /** The item is for this task. */
  ghost predicate Relevant(x: Item, q: Request) {
    x.alwaysInclude || exists k :: 0 <= k < |x.relevanceTags| && x.relevanceTags[k] in q.run.taskTags
  }

  /** An item is eligible exactly when it may be disclosed and is always included or shares a task tag. */
  lemma EligibleIff(candidates: seq<Item>, q: Request, x: Item)
    ensures x in Eligible(candidates, q) <==> x in candidates && Disclosable(x, q) && Relevant(x, q)
  {
    hide Filter, ScopeMatches, HasGrant, InScope, Named, AtMost, Rank;
    LevelMeans(x.sensitivity, q.recipe.maxSensitivity);
    ConfidentialMeans(x.sensitivity);
    ScopeMeans(x, q.run);
    GrantMeans(x, q);
    RelevantMeans(x, q);
  }

  lemma ConfidentialMeans(level: Sensitivity)
    ensures AtMost(Confidential, level) <==> level in {Confidential, Restricted, Secret}
  {
    LevelMeans(Confidential, level);
  }

  lemma RelevantMeans(x: Item, q: Request)
    ensures Relevant(x, q) <==> x.alwaysInclude || exists t :: t in x.relevanceTags && t in q.run.taskTags
  {
  }

  /** Nothing outside the run's scope, past its expiry, above the recipe's ceiling or undisclosed is ever
      selected, and no secret's content. */
  lemma SelectionIsDisclosable(candidates: seq<Item>, q: Request)
    requires ValidCandidates(candidates)
    ensures forall x :: x in Selection(candidates, q) ==>
      Disclosable(x, q) && Relevant(x, q) && (x.kind == SecretReference ==> x.content.None?)
  {
    hide Selection, Wins, Eligible, NoDuplicates, Map, Disclosable, Relevant;
    SelectionFacts(candidates, q);
    forall x | x in Selection(candidates, q) ensures Disclosable(x, q) && Relevant(x, q) {
      EligibleIff(candidates, q, x);
    }
  }

  /** Where equal authorities agree, each claim is selected at most once, and its speaker has the highest
      authority among the eligible items of that claim, agrees with every equal rival, and is the newest
      of them. */
  lemma SelectionSpeaksOncePerClaim(candidates: seq<Item>, q: Request)
    requires NoDuplicates(Map(ItemId(), candidates)) && !Contradictory(Eligible(candidates, q))
    ensures var eligible := Eligible(candidates, q);
      var selection := Selection(candidates, q);
      && (forall i, j :: 0 <= i < j < |selection| ==> selection[i].claimKey != selection[j].claimKey)
      && (forall x, y :: x in selection && y in eligible && y.claimKey == x.claimKey ==>
            && Authority(y.sourceType) <= Authority(x.sourceType)
            && (Authority(y.sourceType) == Authority(x.sourceType) ==>
                  Payload(y) == Payload(x) && StrLeq(y.createdAt, x.createdAt)))
  {
    hide Selection, Eligible, StrLeq;
    var eligible := Eligible(candidates, q);
    var selection := Selection(candidates, q);
    SelectionFacts(candidates, q);
    DistinctImages(ItemId(), candidates);
    EligibleAreCandidates(candidates, q);
    forall i, j | 0 <= i < j < |selection| ensures selection[i].claimKey != selection[j].claimKey {
      var x, y := selection[i], selection[j];
      assert x in selection && y in selection;
      if x.claimKey == y.claimKey {
        WinnersAgree(eligible, x, y);
      }
    }
    forall x, y | x in selection && y in eligible && y.claimKey == x.claimKey
      ensures Authority(y.sourceType) <= Authority(x.sourceType)
      ensures Authority(y.sourceType) == Authority(x.sourceType) ==>
        Payload(y) == Payload(x) && StrLeq(y.createdAt, x.createdAt)
    {
      WinnerPrecedes(eligible, x, y);
    }
  }

  lemma EligibleAreCandidates(candidates: seq<Item>, q: Request)
    ensures forall x :: x in Eligible(candidates, q) ==> x in candidates
  {
    hide Screen;
  }

  lemma WinnerPrecedes(eligible: seq<Item>, x: Item, y: Item)
    requires !Contradictory(eligible) && x in eligible && y in eligible && y.claimKey == x.claimKey && Wins(eligible, x)
    ensures Authority(y.sourceType) <= Authority(x.sourceType)
    ensures Authority(y.sourceType) == Authority(x.sourceType) ==>
      Payload(y) == Payload(x) && StrLeq(y.createdAt, x.createdAt)
  {
    assert Precedes(x, y);
    assert HighestAuthority(eligible, x);
    StrTotal(x.createdAt, x.createdAt);
    if Authority(y.sourceType) == Authority(x.sourceType) {
      assert HighestAuthority(eligible, y);
    }
  }

  function ExclusionId(): Exclusion -> string {
    (e: Exclusion) => e.itemId
  }

  function RenderedId(): Rendered -> string {
    (r: Rendered) => r.id
  }

  /** A candidate is selected exactly when no reason leaves it out. */
  lemma SelectedIffNotLeftOut(candidates: seq<Item>, q: Request, x: Item)
    requires NoDuplicates(Map(ItemId(), candidates)) && x in candidates
    ensures var selection := Selection(candidates, q);
      x in selection <==> !LeftOut(Eligible(candidates, q), selection, q)(x)
  {
    hide Selection, Screen, Wins;
    SelectionFacts(candidates, q);
    if x in Selection(candidates, q) {
      assert Passes(q)(x);
    }
  }

  lemma PartitionIsPermutation(candidates: seq<Item>, q: Request)
    requires NoDuplicates(Map(ItemId(), candidates))
    ensures var eligible := Eligible(candidates, q);
      var selection := Selection(candidates, q);
      Permutation(selection + Filter(candidates, LeftOut(eligible, selection, q)), candidates)
  {
    hide Selection, ReasonFor, Eligible, Wins;
    var selection := Selection(candidates, q);
    var left := LeftOut(Eligible(candidates, q), selection, q);
    var out := Filter(candidates, left);
    DistinctImages(ItemId(), candidates);
    SelectionFacts(candidates, q);
    FilterNoDuplicates(candidates, left);
    forall x | x in candidates ensures x in selection <==> x !in out {
      SelectedIffNotLeftOut(candidates, q, x);
    }
    AppendNoDuplicates(selection, out);
    SameMembersPermutation(selection + out, candidates);
  }

  lemma IdsSplit(selection: seq<Item>, out: seq<Item>, candidates: seq<Item>, exclude: Item -> Exclusion)
    requires Permutation(selection + out, candidates)
    requires forall x :: exclude(x).itemId == x.id
    ensures Permutation(Map(RenderedId(), Map(Rendering(), selection))
                        + Map(ExclusionId(), SortBy(Map(exclude, out), ExclusionOrder())),
                        Map(ItemId(), candidates))
  {
    PermutationMap(ItemId(), selection + out, candidates);
    MapAppend(ItemId(), selection, out);
    assert Map(RenderedId(), Map(Rendering(), selection)) == Map(ItemId(), selection);
    ExclusionOrderIsTotal();
    SortFacts(Map(exclude, out), ExclusionOrder());
    PermutationMap(ExclusionId(), SortBy(Map(exclude, out), ExclusionOrder()), Map(exclude, out));
    assert Map(ExclusionId(), Map(exclude, out)) == Map(ItemId(), out);
  }

  /** What a compiled manifest is made of. */
  lemma CompiledParts(candidates: seq<Item>, q: Request)
    requires Compiled(candidates, q)
    ensures NoDuplicates(Map(ItemId(), candidates))
    ensures Compile(candidates, q).value.body.selectedItems == Map(Rendering(), Selection(candidates, q))
    ensures Compile(candidates, q).value.exclusions == Exclusions(candidates, q)
  {
    hide Selection, Eligible, Exclusions, Contradictory, CheckRequest, NoDuplicates, Map, ValidItem, KindsCovered;
  }

  /** Every candidate id appears exactly once across the selected items and the exclusions. */
  lemma NothingIsLost(candidates: seq<Item>, q: Request)
    requires Compiled(candidates, q)
    ensures var m := Compile(candidates, q).value;
      Permutation(Map(RenderedId(), m.body.selectedItems) + Map(ExclusionId(), m.exclusions),
                  Map(ItemId(), candidates))
  {
    hide Selection, ReasonFor, Eligible, SortBy, Compile, Filter, Map, NoDuplicates;
    CompiledParts(candidates, q);
    var eligible, selection := Eligible(candidates, q), Selection(candidates, q);
    PartitionIsPermutation(candidates, q);
    IdsSplit(selection, Filter(candidates, LeftOut(eligible, selection, q)), candidates,
             Excluding(eligible, selection, q));
  }

  // ---------------------------------------------------------------- packing

  ghost predicate Feasible(items: seq<Item>, picks: seq<bool>, slots: int, room: int, size: Rendered -> nat) {
    && |picks| == |items|
    && |Picked(items, picks)| <= slots
    && Bytes(Picked(items, picks), size) <= room
  }

  /** `a` comes first: at the first difference it takes the item and `b` does not. */
  ghost predicate TakesFirst(a: seq<bool>, b: seq<bool>) {
    exists k :: 0 <= k < |a| && k < |b| && a[..k] == b[..k] && a[k] && !b[k]
  }

  lemma TakesFirstTail(a: seq<bool>, b: seq<bool>)
    requires a != [] && b != [] && a[0] == b[0] && TakesFirst(a[1..], b[1..])
    ensures TakesFirst(a, b)
  {
    var k :| 0 <= k < |a[1..]| && k < |b[1..]| && a[1..][..k] == b[1..][..k] && a[1..][k] && !b[1..][k];
    assert a[..k + 1] == [a[0]] + a[1..][..k] && b[..k + 1] == [b[0]] + b[1..][..k];
    assert a[k + 1] && !b[k + 1];
  }

  lemma PickedBytes(items: seq<Item>, picks: seq<bool>, size: Rendered -> nat)
    requires |picks| == |items| && items != []
    ensures Bytes(Picked(items, picks), size)
         == (if picks[0] then size(Render(items[0])) else 0) + Bytes(Picked(items[1..], picks[1..]), size)
    ensures |Picked(items, picks)| == (if picks[0] then 1 else 0) + |Picked(items[1..], picks[1..])|
  {
    var rest := Picked(items[1..], picks[1..]);
    if picks[0] {
      assert Picked(items, picks) == [items[0]] + rest;
      assert Picked(items, picks)[1..] == rest;
    } else {
      assert Picked(items, picks) == rest;
    }
  }

  /** Whether a packing is feasible is decided by its first pick and the rest. */
  lemma FeasibleStep(items: seq<Item>, picks: seq<bool>, slots: int, room: int, size: Rendered -> nat)
    requires |picks| == |items| && items != []
    ensures var (s, n) := if picks[0] then (1, size(Render(items[0])) as int) else (0, 0);
      Feasible(items, picks, slots, room, size) <==> Feasible(items[1..], picks[1..], slots - s, room - n, size)
  {
    hide Render, Bytes, Picked;
    PickedBytes(items, picks, size);
  }

  lemma FeasibleNeedsBudgets(items: seq<Item>, picks: seq<bool>, slots: int, room: int, size: Rendered -> nat)
    requires Feasible(items, picks, slots, room, size)
    ensures slots >= 0 && room >= 0 && |picks| == |items|
  {
    hide Render, Bytes, Picked;
  }

  lemma PackStarts(items: seq<Item>, slots: int, room: int, size: Rendered -> nat)
    requires items != []
    ensures var n := size(Render(items[0]));
      Pack(items, slots, room, size)
      == if slots > 0 && n <= room then [true] + Pack(items[1..], slots - 1, room - n, size)
         else [false] + Pack(items[1..], slots, room, size)
  {
    hide Render;
  }

  lemma FirstPickDecides(a: seq<bool>, b: seq<bool>)
    requires a != [] && b != [] && a[0] && !b[0]
    ensures TakesFirst(a, b)
  {
    assert a[..0] == b[..0];
  }

  lemma NothingToPack(slots: int, room: int, size: Rendered -> nat, other: seq<bool>)
    requires slots >= 0 && room >= 0
    ensures Pack([], slots, room, size) == [] && Feasible([], [], slots, room, size)
    ensures Feasible([], other, slots, room, size) ==> other == []
  {
  }

  /** First-fit packing is feasible and comes first among all feasible packings of the same list. */
  lemma {:induction false} PackComesFirst(
    items: seq<Item>, slots: int, room: int, size: Rendered -> nat, other: seq<bool>)
    requires slots >= 0 && room >= 0
    ensures Feasible(items, Pack(items, slots, room, size), slots, room, size)
    ensures Feasible(items, other, slots, room, size) && other != Pack(items, slots, room, size)
      ==> TakesFirst(Pack(items, slots, room, size), other)
  {
    hide Feasible, Pack, TakesFirst, Render;
    if items == [] {
      NothingToPack(slots, room, size, other);
    } else {
      var n := size(Render(items[0]));
      var fits := slots > 0 && n <= room;
      var picks := Pack(items, slots, room, size);
      var slots', room' := if fits then slots - 1 else slots, if fits then room - n else room;
      PackStarts(items, slots, room, size);
      assert picks == [fits] + Pack(items[1..], slots', room', size);
      assert picks[1..] == Pack(items[1..], slots', room', size);
      FeasibleStep(items, picks, slots, room, size);
      PackComesFirst(items[1..], slots', room', size, if other == [] then [] else other[1..]);
      if Feasible(items, other, slots, room, size) && other != picks {
        FeasibleNeedsBudgets(items, other, slots, room, size);
        FeasibleStep(items, other, slots, room, size);
        FeasibleNeedsBudgets(items[1..], other[1..], if other[0] then slots - 1 else slots,
                             if other[0] then room - n else room, size);
        if other[0] == fits {
          assert other == [fits] + other[1..];
          TakesFirstTail(picks, other);
        } else {
          FirstPickDecides(picks, other);
        }
      }
    }
  }

  ghost predicate FirstFeasible(items: seq<Item>, picks: seq<bool>, slots: int, room: int, size: Rendered -> nat) {
    && Feasible(items, picks, slots, room, size)
    && forall other :: Feasible(items, other, slots, room, size) && other != picks ==> TakesFirst(picks, other)
  }

  /** The compiled selection keeps both budgets, reports its exact size, and is the lexicographically
      first of all feasible selections from the resolved items. */
  lemma SelectionIsFirstFeasible(candidates: seq<Item>, q: Request)
    requires Compiled(candidates, q)
    ensures var m := Compile(candidates, q).value;
      var resolved := Resolved(Eligible(candidates, q), q.recipe.kindPriority);
      exists picks :: FirstFeasible(resolved, picks, q.recipe.maxItems, q.recipe.maxBytes, q.json.size)
        && m.body.selectedItems == Map(Rendering(), Picked(resolved, picks))
        && m.body.totalBytes == Bytes(Picked(resolved, picks), q.json.size) <= q.recipe.maxBytes
        && |m.body.selectedItems| <= q.recipe.maxItems
  {
    hide Resolved, Exclusions, Eligible, TakesFirst;
    var resolved := Resolved(Eligible(candidates, q), q.recipe.kindPriority);
    var picks := Pack(resolved, q.recipe.maxItems, q.recipe.maxBytes, q.json.size);
    forall other ensures Feasible(resolved, picks, q.recipe.maxItems, q.recipe.maxBytes, q.json.size)
      && ((Feasible(resolved, other, q.recipe.maxItems, q.recipe.maxBytes, q.json.size) && other != picks)
            ==> TakesFirst(picks, other))
    {
      PackComesFirst(resolved, q.recipe.maxItems, q.recipe.maxBytes, q.json.size, other);
    }
    assert FirstFeasible(resolved, picks, q.recipe.maxItems, q.recipe.maxBytes, q.json.size) by {
      PackComesFirst(resolved, q.recipe.maxItems, q.recipe.maxBytes, q.json.size, picks);
    }
  }

  // ---------------------------------------------------------------- order independence

  lemma ScreenIgnoresGrantOrder(x: Item, q: Request, grants: seq<Grant>)
    requires Permutation(q.grants, grants)
    ensures Screen(x, q) == Screen(x, q.(grants := grants))
  {
    SamePermutation(q.grants, grants);
  }

  lemma EligibleIgnoresOrder(candidates: seq<Item>, candidates': seq<Item>, q: Request, grants: seq<Grant>)
    requires Permutation(candidates, candidates') && Permutation(q.grants, grants)
    ensures Permutation(Eligible(candidates, q), Eligible(candidates', q.(grants := grants)))
  {
    var q' := q.(grants := grants);
    forall x ensures Passes(q)(x) == Passes(q')(x) {
      ScreenIgnoresGrantOrder(x, q, grants);
    }
    FilterAgrees(candidates', Passes(q), Passes(q'));
    PermutationFilter(candidates, candidates', Passes(q));
  }

  lemma ResolvedIgnoresOrder(e: seq<Item>, e': seq<Item>, priority: seq<Kind>)
    requires Permutation(e, e') && NoDuplicates(Map(ItemId(), e))
    ensures Resolved(e, priority) == Resolved(e', priority)
    ensures Contradictory(e) == Contradictory(e')
    ensures forall x :: Wins(e, x) == Wins(e', x)
  {
    SamePermutation(e, e');
    forall x ensures Wins(e, x) == Wins(e', x) && HighestAuthority(e, x) == HighestAuthority(e', x) {
    }
    FilterAgrees(e', WinsIn(e), WinsIn(e'));
    PermutationFilter(e, e', WinsIn(e));
    DistinctImages(ItemId(), e);
    PackOrderIsTotal(priority);
    var winners := Filter(e, WinsIn(e));
    forall x, y | x in winners && y in winners && PackOrder(priority)(x, y) && PackOrder(priority)(y, x)
      ensures x == y
    {
      assert ItemId()(x) == ItemId()(y);
    }
    SortIgnoresOrder(winners, Filter(e', WinsIn(e')), PackOrder(priority));
  }

  lemma SpeakerIgnoresOrder(e: seq<Item>, e': seq<Item>, claimKey: string)
    requires Permutation(e, e')
    ensures SpeakerId(e, claimKey) == SpeakerId(e', claimKey)
  {
    SamePermutation(e, e');
    var ours, theirs := Filter(e, Speaks(e, claimKey)), Filter(e', Speaks(e', claimKey));
    forall x ensures x in ours <==> x in theirs {
      assert Wins(e, x) == Wins(e', x);
    }
    assert ours == [] <==> theirs == [] by {
      if ours != [] { assert ours[0] in theirs; }
      if theirs != [] { assert theirs[0] in ours; }
    }
    if ours != [] {
      assert ours[0] in ours && theirs[0] in theirs;
      WinnersAgree(e, ours[0], theirs[0]);
    }
  }

  lemma ExclusionsIgnoreOrder(candidates: seq<Item>, candidates': seq<Item>, q: Request, grants: seq<Grant>)
    requires Permutation(candidates, candidates') && Permutation(q.grants, grants)
    requires NoDuplicates(Map(ItemId(), candidates))
    requires Selection(candidates, q) == Selection(candidates', q.(grants := grants))
    ensures Exclusions(candidates, q) == Exclusions(candidates', q.(grants := grants))
  {
    var q' := q.(grants := grants);
    var e, e', s := Eligible(candidates, q), Eligible(candidates', q'), Selection(candidates, q);
    hide Selection, Screen;
    EligibleIgnoresOrder(candidates, candidates', q, grants);
    SamePermutation(e, e');
    forall x ensures ReasonFor(x, e, s, q) == ReasonFor(x, e', s, q') {
      ScreenIgnoresGrantOrder(x, q, grants);
      assert Wins(e, x) == Wins(e', x);
      SpeakerIgnoresOrder(e, e', x.claimKey);
    }
    ExclusionListsAgree(candidates, candidates', LeftOut(e, s, q), LeftOut(e', s, q'),
                        Excluding(e, s, q), Excluding(e', s, q'));
  }

  lemma ExclusionListsAgree(
    candidates: seq<Item>, candidates': seq<Item>, p: Item -> bool, p': Item -> bool,
    f: Item -> Exclusion, f': Item -> Exclusion)
    requires Permutation(candidates, candidates') && NoDuplicates(Map(ItemId(), candidates))
    requires forall x :: p(x) == p'(x) && f(x) == f'(x) && f(x).itemId == x.id
    ensures SortBy(Map(f, Filter(candidates, p)), ExclusionOrder())
         == SortBy(Map(f', Filter(candidates', p')), ExclusionOrder())
  {
    var out, out' := Filter(candidates, p), Filter(candidates', p');
    FilterAgrees(candidates', p, p');
    PermutationFilter(candidates, candidates', p);
    assert Map(f', out') == Map(f, out');
    PermutationMap(f, out, out');
    ExclusionOrderIsTotal();
    ExclusionsSeparate(candidates, out, f);
    SortIgnoresOrder(Map(f, out), Map(f, out'), ExclusionOrder());
  }

  lemma ExclusionsSeparate(candidates: seq<Item>, out: seq<Item>, f: Item -> Exclusion)
    requires NoDuplicates(Map(ItemId(), candidates))
    requires forall x :: x in out ==> x in candidates
    requires forall x :: f(x).itemId == x.id
    ensures NoTies(Map(f, out), ExclusionOrder())
  {
    DistinctImages(ItemId(), candidates);
    var list := Map(f, out);
    forall a, b | a in list && b in list && ExclusionOrder()(a, b) && ExclusionOrder()(b, a) ensures a == b {
      StrAntisymmetric(a.itemId, b.itemId);
      var i :| 0 <= i < |list| && list[i] == a;
      var j :| 0 <= j < |list| && list[j] == b;
      assert out[i] in candidates && out[j] in candidates;
      assert ItemId()(out[i]) == ItemId()(out[j]);
    }
  }

  lemma ValidityIgnoresOrder(candidates: seq<Item>, candidates': seq<Item>)
    requires Permutation(candidates, candidates')
    ensures ValidCandidates(candidates) == ValidCandidates(candidates')
  {
    hide ValidItem, NoDuplicates, Map;
    SamePermutation(candidates, candidates');
    var ids, ids' := Map(ItemId(), candidates), Map(ItemId(), candidates');
    PermutationMap(ItemId(), candidates, candidates');
    if NoDuplicates(ids) { PermutationNoDuplicates(ids, ids'); }
    if NoDuplicates(ids') { PermutationNoDuplicates(ids', ids); }
  }

  lemma RequestIgnoresGrantOrder(q: Request, grants: seq<Grant>)
    requires Permutation(q.grants, grants)
    ensures CheckRequest(q) == CheckRequest(q.(grants := grants))
  {
    hide ValidRecipe, ValidRun, ValidGrant;
    SamePermutation(q.grants, grants);
  }

  lemma SelectionIgnoresOrder(candidates: seq<Item>, candidates': seq<Item>, q: Request, grants: seq<Grant>)
    requires Permutation(candidates, candidates') && Permutation(q.grants, grants) && ValidCandidates(candidates)
    ensures Contradictory(Eligible(candidates, q)) == Contradictory(Eligible(candidates', q.(grants := grants)))
    ensures Selection(candidates, q) == Selection(candidates', q.(grants := grants))
  {
    hide ValidItem, Screen, Contradictory;
    var e, e' := Eligible(candidates, q), Eligible(candidates', q.(grants := grants));
    EligibleIgnoresOrder(candidates, candidates', q, grants);
    DistinctImages(ItemId(), candidates);
    FilterNoDuplicates(candidates, Passes(q));
    ImagesNoDuplicates(ItemId(), e);
    ResolvedIgnoresOrder(e, e', q.recipe.kindPriority);
  }

  /** Permuting the candidates or the disclosure grants gives the same outcome, and on success the
      same selection, size, digest, identity and exclusions. */
  lemma CompileIgnoresOrder(candidates: seq<Item>, candidates': seq<Item>, q: Request, grants: seq<Grant>)
    requires Permutation(candidates, candidates') && Permutation(q.grants, grants)
    ensures Compile(candidates, q) == Compile(candidates', q.(grants := grants))
  {
    hide ValidItem, NoDuplicates, Map, CheckRequest, Eligible, Selection, Exclusions, Contradictory, KindsCovered,
      Bytes, Permutation;
    RequestIgnoresGrantOrder(q, grants);
    ValidityIgnoresOrder(candidates, candidates');
    if ValidCandidates(candidates) {
      SelectionIgnoresOrder(candidates, candidates', q, grants);
      ExclusionsIgnoreOrder(candidates, candidates', q, grants);
    }
  }
}
