/** A compiled context read off its candidates, recipe, run and grants alone: which item speaks for a claim, in which
    order they are packed and into what budget, why each other one is left out, and when compiling is refused. */
module ContextReports {
  import opened Orders
  import opened Collections
  import opened ContextCompiler
  import opened ContextProperties

  // ---------------------------------------------------------------- who speaks for a claim

  /** The sources, the one with the most authority first. */
  const SOURCES := [
    OrganizationPolicy, ProjectPolicy, UserInstruction, CanonicalState, GovernedContract, VerifiedEvidence,
    ExternalSource, LiaisonSummary, AssumptionSource]

  ghost predicate Outranks(a: Source, b: Source) {
    exists i, j :: 0 <= i < j < |SOURCES| && SOURCES[i] == a && SOURCES[j] == b
  }

  function Place(s: Source): (k: nat)
    ensures k < |SOURCES| && SOURCES[k] == s
  {
    match s
    case OrganizationPolicy => 0
    case ProjectPolicy => 1
    case UserInstruction => 2
    case CanonicalState => 3
    case GovernedContract => 4
    case VerifiedEvidence => 5
    case ExternalSource => 6
    case LiaisonSummary => 7
    case AssumptionSource => 8
  }

  lemma PlaceOf(k: nat)
    requires k < |SOURCES|
    ensures Place(SOURCES[k]) == k
  {
  }

  lemma AuthorityByPlace(a: Source, b: Source)
    ensures Authority(a) > Authority(b) <==> Place(a) < Place(b)
    ensures Authority(a) == Authority(b) <==> a == b
  {
  }

  lemma AuthorityMeans(a: Source, b: Source)
    ensures Authority(a) > Authority(b) <==> Outranks(a, b)
    ensures Authority(a) == Authority(b) <==> a == b
  {
    hide Authority, Place, SOURCES;
    AuthorityByPlace(a, b);
    var m, n := Place(a), Place(b);
    if i, j :| 0 <= i < j < |SOURCES| && SOURCES[i] == a && SOURCES[j] == b {
      PlaceOf(i);
      PlaceOf(j);
    }
    if m < n {
      assert SOURCES[m] == a && SOURCES[n] == b;
    }
  }

  ghost predicate Fit(x: Item, candidates: seq<Item>, q: Request) {
    x in candidates && Disclosable(x, q) && Relevant(x, q)
  }

  /** Of two items on one claim: the source with more authority, then the one created later, then the larger id. */
  ghost predicate SpeaksBefore(x: Item, y: Item) {
    || Outranks(x.sourceType, y.sourceType)
    || (x.sourceType == y.sourceType && x.createdAt != y.createdAt && ReadsBefore(y.createdAt, x.createdAt))
    || (x.sourceType == y.sourceType && x.createdAt == y.createdAt && ReadsBefore(y.id, x.id))
  }

  /** The item speaks for its claim. */
  ghost predicate SpeaksFor(x: Item, candidates: seq<Item>, q: Request) {
    && Fit(x, candidates, q)
    && forall y :: Fit(y, candidates, q) && y.claimKey == x.claimKey ==> SpeaksBefore(x, y)
  }

  lemma PrecedesMeans(x: Item, y: Item)
    ensures Precedes(x, y) <==> SpeaksBefore(x, y)
  {
    hide Authority, StrLeq, ReadsBefore, Outranks;
    AuthorityMeans(x.sourceType, y.sourceType);
    StrLeqMeans(y.createdAt, x.createdAt);
    StrLeqMeans(y.id, x.id);
  }

  lemma WinsMeans(x: Item, candidates: seq<Item>, q: Request)
    ensures x in Eligible(candidates, q) && Wins(Eligible(candidates, q), x) <==> SpeaksFor(x, candidates, q)
  {
    hide Precedes, SpeaksBefore, Disclosable, Relevant, Eligible;
    forall y ensures
      (y in Eligible(candidates, q) <==> Fit(y, candidates, q)) && (Precedes(x, y) <==> SpeaksBefore(x, y))
    {
      EligibleIff(candidates, q, y);
      PrecedesMeans(x, y);
    }
    hide Fit;
  }

  // ---------------------------------------------------------------- the packing order

  /** The recipe names the first kind before any mention of the second. */
  ghost predicate NamedEarlier(priority: seq<Kind>, a: Kind, b: Kind) {
    exists i :: 0 <= i < |priority| && priority[i] == a && forall j :: 0 <= j <= i ==> priority[j] != b
  }

  lemma {:induction false} KindIndexFacts(priority: seq<Kind>, kind: Kind)
    ensures var k := KindIndex(priority, kind);
      && k <= |priority| && (k < |priority| ==> priority[k] == kind)
      && forall j :: 0 <= j < k ==> priority[j] != kind
  {
    if priority != [] && priority[0] != kind {
      KindIndexFacts(priority[1..], kind);
      forall j | 0 < j < KindIndex(priority, kind) ensures priority[j] != kind {
        assert priority[j] == priority[1..][j - 1];
      }
    }
  }

  lemma KindIndexMeans(priority: seq<Kind>, a: Kind, b: Kind)
    ensures KindIndex(priority, a) < KindIndex(priority, b) <==> NamedEarlier(priority, a, b)
  {
    hide KindIndex;
    KindIndexFacts(priority, a);
    KindIndexFacts(priority, b);
  }

  /** Always-included items first, then more authority, then the kind the recipe names earlier, then the smaller id. */
  ghost predicate PackedBefore(a: Item, b: Item, priority: seq<Kind>) {
    || (a.alwaysInclude && !b.alwaysInclude)
    || (a.alwaysInclude == b.alwaysInclude && Outranks(a.sourceType, b.sourceType))
    || (a.alwaysInclude == b.alwaysInclude && a.sourceType == b.sourceType && NamedEarlier(priority, a.kind, b.kind))
    || (a.alwaysInclude == b.alwaysInclude && a.sourceType == b.sourceType
        && !NamedEarlier(priority, a.kind, b.kind) && !NamedEarlier(priority, b.kind, a.kind)
        && ReadsBefore(a.id, b.id))
  }

  lemma PackOrderMeans(a: Item, b: Item, priority: seq<Kind>)
    ensures PacksBefore(a, b, priority) <==> PackedBefore(a, b, priority)
  {
    hide Authority, StrLeq, ReadsBefore, Outranks, KindIndex, NamedEarlier;
    AuthorityMeans(a.sourceType, b.sourceType);
    StrLeqMeans(a.id, b.id);
    KindIndexMeans(priority, a.kind, b.kind);
    KindIndexMeans(priority, b.kind, a.kind);
  }

  // ---------------------------------------------------------------- the budget

  /** The sizes of these items as they are sent. */
  ghost function Weight(items: seq<Item>, size: Rendered -> nat): nat {
    if items == [] then 0
    else
      var last := items[|items| - 1];
      Weight(items[..|items| - 1], size) + size(Sent(last))
  }

  /** What is sent of an item. */
  function Sent(x: Item): (r: Rendered)
    ensures r.id == x.id && r.revision == x.revision && r.kind == x.kind && r.sourceType == x.sourceType
    ensures r.sourceRef == x.sourceRef && r.sensitivity == x.sensitivity && r.integrity == x.integrity
    ensures r.claimKey == x.claimKey && r.content == x.content && r.reference == x.reference
  {
    Rendered(x.id, x.revision, x.kind, x.sourceType, x.sourceRef, x.sensitivity, x.integrity, x.claimKey, x.content,
             x.reference)
  }

  lemma BytesSnoc(items: seq<Item>, x: Item, size: Rendered -> nat)
    ensures Bytes(items + [x], size) == Bytes(items, size) + size(Render(x))
  {
    if items == [] {
      assert [] + [x] == [x] && [x][1..] == [];
    } else {
      BytesSnoc(items[1..], x, size);
      assert (items + [x])[1..] == items[1..] + [x];
    }
  }

  lemma {:induction false} BytesAreWeight(items: seq<Item>, size: Rendered -> nat)
    ensures Bytes(items, size) == Weight(items, size)
  {
    if items == [] {
    } else {
      var n := |items| - 1;
      BytesAreWeight(items[..n], size);
      BytesSnoc(items[..n], items[n], size);
      assert items == items[..n] + [items[n]];
    }
  }

  lemma WeightHead(x: Item, items: seq<Item>, size: Rendered -> nat)
    ensures Weight([x] + items, size) == size(Sent(x)) + Weight(items, size)
  {
    BytesAreWeight([x] + items, size);
    BytesAreWeight(items, size);
    assert ([x] + items)[1..] == items;
  }

  /** The item does not fit behind these selected ones. */
  ghost predicate NoRoomBehind(ahead: seq<Item>, x: Item, q: Request) {
    |ahead| >= q.recipe.maxItems || Weight(ahead, q.json.size) + q.json.size(Sent(x)) > q.recipe.maxBytes
  }

  /** What packing leaves out did not fit behind what was taken before it; what it takes did. */
  lemma {:induction false} PackFits(items: seq<Item>, slots: int, room: int, size: Rendered -> nat, i: nat)
    requires i < |items|
    ensures var picks := Pack(items, slots, room, size);
      var ahead := Picked(items[..i], picks[..i]);
      picks[i] <==> |ahead| < slots && Weight(ahead, size) + size(Sent(items[i])) <= room
  {
    hide Weight;
    var picks := Pack(items, slots, room, size);
    var ahead := Picked(items[..i], picks[..i]);
    if i == 0 {
      NothingWeighs(size);
      assert ahead == [];
    } else {
      var n := size(Render(items[0]));
      var taken := !(slots <= 0 || n > room);
      var (s, m) := if taken then (1, n as int) else (0, 0);
      PackFits(items[1..], slots - s, room - m, size, i - 1);
      var rest := Picked(items[1..][..i - 1], picks[1..][..i - 1]);
      assert items[..i][1..] == items[1..][..i - 1] && picks[..i][1..] == picks[1..][..i - 1];
      assert ahead == (if taken then [items[0]] else []) + rest;
      WeightHead(items[0], rest, size);
      assert [] + rest == rest;
    }
  }

  lemma NothingWeighs(size: Rendered -> nat)
    ensures Weight([], size) == 0
  {
  }

  // ---------------------------------------------------------------- the selection

  /** Where the item stands among the selected ones: behind these and before those. */
  ghost predicate StandsAt(x: Item, k: nat, selection: seq<Item>, priority: seq<Kind>) {
    && k <= |selection|
    && (forall i :: 0 <= i < k ==> selection[i] != x && PackedBefore(selection[i], x, priority))
    && (forall i :: k <= i < |selection| ==> selection[i] == x || PackedBefore(x, selection[i], priority))
  }

  lemma {:induction false} PickedSplit<T>(xs: seq<T>, picks: seq<bool>, m: nat)
    requires |xs| == |picks| && m <= |xs|
    ensures Picked(xs, picks) == Picked(xs[..m], picks[..m]) + Picked(xs[m..], picks[m..])
  {
    if m > 0 {
      PickedSplit(xs[1..], picks[1..], m - 1);
      PickedHead(xs, picks, m);
      assert xs[1..][m - 1..] == xs[m..] && picks[1..][m - 1..] == picks[m..];
    }
  }

  /** Picking keeps a sorted list sorted. */
  lemma {:induction false} PickedSorted(xs: seq<Item>, picks: seq<bool>, leq: (Item, Item) -> bool)
    requires |xs| == |picks| && Sorted(xs, leq)
    ensures Sorted(Picked(xs, picks), leq)
  {
    if xs == [] {
    } else {
      PickedSorted(xs[1..], picks[1..], leq);
      PickedFacts(xs[1..], picks[1..]);
      var rest := Picked(xs[1..], picks[1..]);
      forall i | 0 <= i < |rest| ensures leq(xs[0], rest[i]) {
        assert rest[i] in xs[1..];
        var j :| 0 <= j < |xs[1..]| && xs[1..][j] == rest[i];
        assert xs[j + 1] == rest[i];
      }
    }
  }

  /** The items that speak for their claims, in packing order. */
  lemma ResolvedReads(candidates: seq<Item>, q: Request)
    requires NoDuplicates(Map(ItemId(), candidates))
    ensures var resolved := Resolved(Eligible(candidates, q), q.recipe.kindPriority);
      && NoDuplicates(resolved) && Sorted(resolved, PackOrder(q.recipe.kindPriority))
      && forall x :: x in resolved <==> SpeaksFor(x, candidates, q)
  {
    hide Wins, SpeaksFor, Sorted, TotalPreorder, PacksBefore, Screen, Eligible;
    var eligible := Eligible(candidates, q);
    var winners := Filter(eligible, WinsIn(eligible));
    DistinctImages(ItemId(), candidates);
    EligibleDistinct(candidates, q);
    FilterNoDuplicates(eligible, WinsIn(eligible));
    PackOrderIsTotal(q.recipe.kindPriority);
    SortFacts(winners, PackOrder(q.recipe.kindPriority));
    PermutationNoDuplicates(winners, Resolved(eligible, q.recipe.kindPriority));
    forall x ensures x in winners <==> SpeaksFor(x, candidates, q) {
      WinsMeans(x, candidates, q);
    }
  }

  lemma EligibleDistinct(candidates: seq<Item>, q: Request)
    requires NoDuplicates(candidates)
    ensures NoDuplicates(Eligible(candidates, q))
  {
    FilterNoDuplicates(candidates, Passes(q));
  }

  lemma SortedMeans(xs: seq<Item>, priority: seq<Kind>, i: nat, j: nat)
    requires Sorted(xs, PackOrder(priority)) && i < j < |xs|
    ensures PackedBefore(xs[i], xs[j], priority)
  {
    hide PacksBefore, PackedBefore;
    assert PackOrder(priority)(xs[i], xs[j]);
    PackOrderMeans(xs[i], xs[j], priority);
  }

  /** The selected items speak for their claims and come in packing order. */
  lemma SelectionInOrder(candidates: seq<Item>, q: Request)
    requires ValidCandidates(candidates)
    ensures var selection := Selection(candidates, q);
      && (forall x :: x in selection ==> SpeaksFor(x, candidates, q))
      && (forall i, j :: 0 <= i < j < |selection| ==>
            selection[i] != selection[j] && PackedBefore(selection[i], selection[j], q.recipe.kindPriority))
  {
    hide SpeaksFor, Sorted, PackedBefore, Pack, Resolved, Eligible, ValidItem, PackOrder;
    ResolvedReads(candidates, q);
    var resolved := Resolved(Eligible(candidates, q), q.recipe.kindPriority);
    var picks := Pack(resolved, q.recipe.maxItems, q.recipe.maxBytes, q.json.size);
    PickedFacts(resolved, picks);
    PickedSorted(resolved, picks, PackOrder(q.recipe.kindPriority));
    var selection := Selection(candidates, q);
    forall i, j | 0 <= i < j < |selection| ensures PackedBefore(selection[i], selection[j], q.recipe.kindPriority) {
      SortedMeans(selection, q.recipe.kindPriority, i, j);
    }
  }

  /** An item that speaks for its claim is selected exactly when the selected ones before it in packing order leave it
      a slot and the bytes it takes. */
  lemma SelectedIffItFits(candidates: seq<Item>, q: Request, x: Item) returns (k: nat)
    requires ValidCandidates(candidates) && SpeaksFor(x, candidates, q)
    ensures var selection := Selection(candidates, q);
      && StandsAt(x, k, selection, q.recipe.kindPriority)
      && (x in selection <==> !NoRoomBehind(selection[..k], x, q))
  {
    hide SpeaksFor, Sorted, PackedBefore, Pack, Resolved, Eligible, ValidItem, PackOrder, Weight, NoDuplicates;
    ResolvedReads(candidates, q);
    var resolved := Resolved(Eligible(candidates, q), q.recipe.kindPriority);
    var picks := Pack(resolved, q.recipe.maxItems, q.recipe.maxBytes, q.json.size);
    var m :| 0 <= m < |resolved| && resolved[m] == x;
    var ahead, behind := Picked(resolved[..m], picks[..m]), Picked(resolved[m..], picks[m..]);
    k := |ahead|;
    PickedSplit(resolved, picks, m);
    PackFits(resolved, q.recipe.maxItems, q.recipe.maxBytes, q.json.size, m);
    PickedExactly(resolved, picks, m);
    AroundInOrder(resolved, picks, q.recipe.kindPriority, m);
    assert Selection(candidates, q)[..k] == ahead;
  }

  lemma AroundInOrder(resolved: seq<Item>, picks: seq<bool>, priority: seq<Kind>, m: nat)
    requires NoDuplicates(resolved) && Sorted(resolved, PackOrder(priority)) && m < |resolved| == |picks|
    ensures StandsAt(resolved[m], |Picked(resolved[..m], picks[..m])|,
                     Picked(resolved[..m], picks[..m]) + Picked(resolved[m..], picks[m..]), priority)
  {
    hide Sorted, PackedBefore, PackOrder;
    var ahead, behind := Picked(resolved[..m], picks[..m]), Picked(resolved[m..], picks[m..]);
    PickedFacts(resolved[..m], picks[..m]);
    PickedFacts(resolved[m..], picks[m..]);
    forall i | 0 <= i < |ahead| ensures ahead[i] != resolved[m] && PackedBefore(ahead[i], resolved[m], priority) {
      assert ahead[i] in ahead;
      var a :| 0 <= a < m && resolved[..m][a] == ahead[i];
      SortedMeans(resolved, priority, a, m);
    }
    forall i | 0 <= i < |behind|
      ensures behind[i] == resolved[m] || PackedBefore(resolved[m], behind[i], priority)
    {
      assert behind[i] in behind;
      var b :| 0 <= b < |resolved[m..]| && resolved[m..][b] == behind[i];
      if b > 0 {
        SortedMeans(resolved, priority, m, m + b);
      }
    }
  }

  /** An always-included item that speaks for its claim is left out for the budget only when selected items that are
      always included as well fill the slots, or leave it too few bytes. */
  lemma AlwaysIncludedGoesFirst(candidates: seq<Item>, q: Request, x: Item)
    requires ValidCandidates(candidates) && SpeaksFor(x, candidates, q) && x.alwaysInclude
    requires x !in Selection(candidates, q)
    ensures var selection := Selection(candidates, q);
      exists k :: 0 <= k <= |selection| && NoRoomBehind(selection[..k], x, q)
        && forall i :: 0 <= i < k ==> selection[i].alwaysInclude
  {
    hide SpeaksFor, Selection, ValidItem, Outranks, NamedEarlier, ReadsBefore, Weight;
    var k := SelectedIffItFits(candidates, q, x);
  }

  // ---------------------------------------------------------------- the manifest

  /** The manifest says for whom, by which recipe and when it was made, what is sent and how much that is; it is named
      after the run and the digest of its body. */
  lemma ManifestReads(candidates: seq<Item>, q: Request)
    requires Compiled(candidates, q)
    ensures var m, selection := Compile(candidates, q).value, Selection(candidates, q);
      && m.body.runId == q.run.runId && m.body.role == q.run.role == q.recipe.role
      && m.body.recipeId == q.recipe.id && m.body.recipeVersion == q.recipe.version && m.body.generatedAt == q.now
      && m.body.toolAllowlist == q.recipe.toolAllowlist && m.body.networkAllowlist == q.recipe.networkAllowlist
      && |m.body.selectedItems| == |selection|
      && (forall i :: 0 <= i < |selection| ==> m.body.selectedItems[i] == Sent(selection[i]))
      && m.body.totalBytes == Weight(selection, q.json.size) && m.sha256 == q.json.digest(m.body)
      && (|m.sha256| >= 12 ==> m.manifestId == "CTX-" + q.run.runId + "-" + m.sha256[..12])
  {
    hide Selection, Exclusions, Eligible, Contradictory, ValidCandidates, ValidRecipe, ValidRun, ValidGrant,
      KindsCovered, Weight, Bytes;
    BytesAreWeight(Selection(candidates, q), q.json.size);
  }

  // ---------------------------------------------------------------- why the others are left out

  /** The first thing, in this order, that keeps an item out before claims are compared. */
  ghost predicate Objection(reason: string, x: Item, q: Request) {
    var kind, source := x.kind in q.recipe.allowedKinds, x.sourceType in q.recipe.allowedSources;
    var level, scope := AtMost(x.sensitivity, q.recipe.maxSensitivity), InScope(x, q.run);
    var current := match x.expiresAt case Some(end) => q.now <= end case None => true;
    var disclosed := AtMost(Confidential, x.sensitivity) ==> Named(x, q);
    || (!kind && reason == "kind not allowed by recipe")
    || (kind && !source && reason == "source not allowed by recipe")
    || (kind && source && !level && reason == "sensitivity exceeds recipe")
    || (kind && source && level && !scope && reason == "outside run scope")
    || (kind && source && level && scope && !current && reason == "context item expired")
    || (kind && source && level && scope && current && !disclosed && reason == "exact disclosure grant missing")
    || (Disclosable(x, q) && !Relevant(x, q) && reason == "not relevant to run task tags")
  }

  lemma ScreenMeans(x: Item, q: Request, reason: string)
    ensures Screen(x, q) == Some(reason) <==> Objection(reason, x, q)
  {
    hide ScopeMatches, HasGrant, InScope, Named, AtMost, Rank, Relevant;
    LevelMeans(x.sensitivity, q.recipe.maxSensitivity);
    ConfidentialMeans(x.sensitivity);
    ScopeMeans(x, q.run);
    GrantMeans(x, q);
    RelevantMeans(x, q);
  }

  /** Why a candidate is not sent: an objection, another item that speaks for its claim, or the budget. */
  ghost predicate LeftOutFor(reason: string, x: Item, candidates: seq<Item>, q: Request) {
    || Objection(reason, x, q)
    || (Fit(x, candidates, q) && !SpeaksFor(x, candidates, q)
        && exists w :: SpeaksFor(w, candidates, q) && w.claimKey == x.claimKey
             && reason == "superseded by higher-precedence " + w.id)
    || (SpeaksFor(x, candidates, q) && x !in Selection(candidates, q) && reason == "context budget exhausted")
  }

  /** Some eligible item speaks for every claim an eligible item makes. */
  lemma ClaimHasSpeaker(candidates: seq<Item>, q: Request, x: Item) returns (w: Item)
    requires Fit(x, candidates, q)
    ensures SpeaksFor(w, candidates, q) && w.claimKey == x.claimKey
  {
    hide Disclosable, Relevant, Precedes;
    EligibleIff(candidates, q, x);
    w := GreatestOf(Eligible(candidates, q), x.claimKey, x);
    WinsMeans(w, candidates, q);
  }

  lemma {:induction false} GreatestOf(items: seq<Item>, claimKey: string, x: Item) returns (w: Item)
    requires x in items && x.claimKey == claimKey
    ensures w in items && w.claimKey == claimKey && Wins(items, w)
  {
    hide Precedes;
    var head, rest := items[0], items[1..];
    assert items == [head] + rest;
    PrecedenceIsTotal();
    assert forall a, b :: PrecedenceOrder()(a, b) == Precedes(a, b);
    if exists y :: y in rest && y.claimKey == claimKey {
      var y :| y in rest && y.claimKey == claimKey;
      var v := GreatestOf(rest, claimKey, y);
      w := if head.claimKey == claimKey && Precedes(head, v) then head else v;
      forall z | z in items && z.claimKey == claimKey ensures Precedes(w, z) {
        assert Precedes(head, head);
        if z in rest {
          assert Precedes(v, z);
        }
      }
    } else {
      w := x;
      forall z | z in items && z.claimKey == claimKey ensures Precedes(w, z) {
        assert PrecedenceOrder()(w, z) || PrecedenceOrder()(z, w);
      }
    }
  }

  lemma SpeakerMeans(candidates: seq<Item>, q: Request, x: Item, id: string)
    requires NoDuplicates(Map(ItemId(), candidates)) && Fit(x, candidates, q)
    ensures SpeakerId(Eligible(candidates, q), x.claimKey) == id
      <==> exists w :: SpeaksFor(w, candidates, q) && w.claimKey == x.claimKey && w.id == id
  {
    hide Disclosable, Relevant, Precedes, SpeaksFor, Wins, Eligible, Fit;
    var eligible := Eligible(candidates, q);
    var speakers := Filter(eligible, Speaks(eligible, x.claimKey));
    forall w ensures w in speakers <==> SpeaksFor(w, candidates, q) && w.claimKey == x.claimKey {
      WinsMeans(w, candidates, q);
    }
    var v := ClaimHasSpeaker(candidates, q, x);
    assert speakers[0] in speakers;
    forall w | w in speakers ensures w.id == speakers[0].id {
      WinnersAgree(eligible, w, speakers[0]);
    }
  }

  lemma ReasonMeans(candidates: seq<Item>, q: Request, x: Item, reason: string)
    requires NoDuplicates(Map(ItemId(), candidates)) && x in candidates
    ensures ReasonFor(x, Eligible(candidates, q), Selection(candidates, q), q) == Some(reason)
      <==> LeftOutFor(reason, x, candidates, q)
  {
    hide Selection, Eligible, Wins, SpeaksFor, Disclosable, Relevant, Screen, Objection, SpeakerId;
    forall r ensures Screen(x, q) == Some(r) <==> Objection(r, x, q) {
      ScreenMeans(x, q, r);
    }
    EligibleIff(candidates, q, x);
    PassesMeans(candidates, q, x);
    WinsMeans(x, candidates, q);
    if Fit(x, candidates, q) {
      SpeakerMeans(candidates, q, x, SpeakerId(Eligible(candidates, q), x.claimKey));
      forall w | SpeaksFor(w, candidates, q) && w.claimKey == x.claimKey
        ensures w.id == SpeakerId(Eligible(candidates, q), x.claimKey)
      {
        SpeakerMeans(candidates, q, x, w.id);
      }
    }
    SpeakersFit(candidates, q, x);
  }

  lemma PassesMeans(candidates: seq<Item>, q: Request, x: Item)
    requires x in candidates
    ensures x in Eligible(candidates, q) <==> Screen(x, q).None?
  {
    hide Screen;
  }

  lemma SpeakersFit(candidates: seq<Item>, q: Request, x: Item)
    ensures SpeaksFor(x, candidates, q) ==> Fit(x, candidates, q)
  {
  }

  /** The exclusions are listed by item id, and give for each candidate that is not sent exactly its reason. */
  lemma ExclusionsAre(candidates: seq<Item>, q: Request)
    requires Compiled(candidates, q)
    ensures var listed := Compile(candidates, q).value.exclusions;
      && (forall i, j :: 0 <= i < j < |listed| ==> ReadsBefore(listed[i].itemId, listed[j].itemId))
      && forall e: Exclusion :: e in listed <==>
           exists x :: x in candidates && x.id == e.itemId && LeftOutFor(e.reason, x, candidates, q)
  {
    hide Selection, Eligible, LeftOutFor, ReasonFor, Compile, StrLeq, ReadsBefore, TotalPreorder, Map;
    CompiledParts(candidates, q);
    var listed := Compile(candidates, q).value.exclusions;
    var eligible, selection := Eligible(candidates, q), Selection(candidates, q);
    var out := Filter(candidates, LeftOut(eligible, selection, q));
    var made := Map(Excluding(eligible, selection, q), out);
    ExclusionOrderIsTotal();
    SortFacts(made, ExclusionOrder());
    forall i, j | 0 <= i < j < |listed| ensures ReadsBefore(listed[i].itemId, listed[j].itemId) {
      assert ExclusionOrder()(listed[i], listed[j]);
      StrLeqMeans(listed[i].itemId, listed[j].itemId);
    }
    forall x, reason | x in candidates ensures
      ReasonFor(x, eligible, selection, q) == Some(reason) <==> LeftOutFor(reason, x, candidates, q)
    {
      ReasonMeans(candidates, q, x, reason);
    }
    ExclusionMembers(out, eligible, selection, q);
  }

  lemma ExclusionMembers(out: seq<Item>, eligible: seq<Item>, selection: seq<Item>, q: Request)
    requires forall x :: x in out ==> ReasonFor(x, eligible, selection, q).Some?
    ensures forall e: Exclusion :: e in Map(Excluding(eligible, selection, q), out) <==>
      exists x :: x in out && x.id == e.itemId && ReasonFor(x, eligible, selection, q) == Some(e.reason)
  {
    hide ReasonFor;
    var made := Map(Excluding(eligible, selection, q), out);
    forall e | e in made
      ensures exists x :: x in out && x.id == e.itemId && ReasonFor(x, eligible, selection, q) == Some(e.reason)
    {
      var k :| 0 <= k < |made| && made[k] == e;
      assert out[k] in out;
    }
    forall e: Exclusion, x | x in out && x.id == e.itemId && ReasonFor(x, eligible, selection, q) == Some(e.reason)
      ensures e in made
    {
      MapMembers(Excluding(eligible, selection, q), out, x);
    }
  }

  // ---------------------------------------------------------------- which compilations are refused

  ghost predicate Distinct<T(!new)>(xs: seq<T>) {
    forall i, j :: 0 <= i < j < |xs| ==> xs[i] != xs[j]
  }

  /** The recipe ranks exactly the kinds it allows, requires only those, and has both budgets. */
  ghost predicate SoundRecipe(r: Recipe) {
    && Distinct(r.allowedKinds) && Distinct(r.requiredKinds) && Distinct(r.kindPriority)
    && Distinct(r.allowedSources) && Distinct(r.toolAllowlist) && Distinct(r.networkAllowlist)
    && (forall kind :: kind in r.kindPriority <==> kind in r.allowedKinds)
    && (forall kind :: kind in r.requiredKinds ==> kind in r.allowedKinds)
    && r.maxItems > 0 && r.maxBytes > 0
  }

  ghost predicate SoundRun(r: Run) {
    Distinct(r.entityIds) && Distinct(r.modes) && Distinct(r.taskTags) && |r.taskTags| > 0
  }

  /** A grant names exact items and runs, and comes from a policy or the user. */
  ghost predicate SoundGrant(g: Grant) {
    && Distinct(g.itemIds) && |g.itemIds| > 0 && Distinct(g.runIds) && |g.runIds| > 0
    && (g.authority == "organization_policy" || g.authority == "project_policy" || g.authority == "user_decision")
  }

  /** An item has text, or for a secret only a reference; hearsay claims no authority and assumptions say so. */
  ghost predicate SoundItem(x: Item) {
    && (x.integrity == Authoritative ==> x.sourceType != ExternalSource && x.sourceType != LiaisonSummary)
    && (x.sourceType == AssumptionSource ==> x.kind == AssumptionKind)
    && (x.sourceType == AssumptionSource || x.kind == AssumptionKind ==> x.integrity == AssumptionIntegrity)
    && Distinct(x.entityIds) && Distinct(x.stages) && Distinct(x.modes) && Distinct(x.roles)
    && Distinct(x.relevanceTags)
    && (x.kind == SecretReference <==> x.sensitivity == Secret)
    && (x.kind == SecretReference <==> x.content == None) && (x.kind == SecretReference <==> x.reference != None)
  }

  ghost predicate SoundItems(candidates: seq<Item>) {
    && (forall i :: 0 <= i < |candidates| ==> SoundItem(candidates[i]))
    && forall i, j :: 0 <= i < j < |candidates| ==> candidates[i].id != candidates[j].id
  }

  ghost predicate SoundGrants(grants: seq<Grant>) {
    forall i :: 0 <= i < |grants| ==> SoundGrant(grants[i])
  }

  /** The item says this text. */
  ghost predicate SaysText(x: Item, text: string) {
    x.content == Some(text) || (x.content == None && x.reference == Some(text))
  }

  /** Nothing eligible outranks the item on its claim. */
  ghost predicate Leads(x: Item, candidates: seq<Item>, q: Request) {
    && Fit(x, candidates, q)
    && forall y :: Fit(y, candidates, q) && y.claimKey == x.claimKey ==> !Outranks(y.sourceType, x.sourceType)
  }

  /** Two leading items on one claim say different things. */
  ghost predicate Conflict(x: Item, y: Item, candidates: seq<Item>, q: Request) {
    && Leads(x, candidates, q) && Leads(y, candidates, q) && x.claimKey == y.claimKey
    && exists t, u :: SaysText(x, t) && SaysText(y, u) && t != u
  }

  /** A required kind is not among the selected items. */
  ghost predicate KindMissing(kind: Kind, candidates: seq<Item>, q: Request) {
    kind in q.recipe.requiredKinds && forall x :: x in Selection(candidates, q) ==> x.kind != kind
  }

  lemma SoundItemsIff(candidates: seq<Item>)
    ensures SoundItems(candidates) <==> ValidCandidates(candidates)
  {
    forall i | 0 <= i < |candidates|
      ensures candidates[i] in candidates && (SoundItem(candidates[i]) <==> ValidItem(candidates[i]))
    {
      SoundItemIff(candidates[i]);
    }
    hide SoundItem, ValidItem;
    assert forall i :: 0 <= i < |candidates| ==> Map(ItemId(), candidates)[i] == candidates[i].id;
  }

  lemma SoundItemIff(x: Item)
    ensures SoundItem(x) <==> ValidItem(x)
  {
  }

  lemma SoundGrantsIff(grants: seq<Grant>)
    ensures SoundGrants(grants) <==> !exists g :: g in grants && !ValidGrant(g)
  {
    forall i | 0 <= i < |grants| ensures grants[i] in grants && (SoundGrant(grants[i]) <==> ValidGrant(grants[i])) {
    }
    hide SoundGrant, ValidGrant;
  }

  lemma SoundRequestIff(q: Request)
    ensures SoundRecipe(q.recipe) <==> ValidRecipe(q.recipe)
    ensures SoundRun(q.run) <==> ValidRun(q.run)
  {
  }

  lemma LeadsMeans(candidates: seq<Item>, q: Request, x: Item)
    ensures x in Eligible(candidates, q) && HighestAuthority(Eligible(candidates, q), x) <==> Leads(x, candidates, q)
  {
    hide Authority, Outranks, Disclosable, Relevant, Eligible;
    forall y ensures (y in Eligible(candidates, q) <==> Fit(y, candidates, q))
      && (Authority(y.sourceType) <= Authority(x.sourceType) <==> !Outranks(y.sourceType, x.sourceType))
    {
      EligibleIff(candidates, q, y);
      AuthorityMeans(y.sourceType, x.sourceType);
    }
    hide Fit;
  }

  lemma ConflictMeans(candidates: seq<Item>, q: Request)
    requires SoundItems(candidates)
    ensures Contradictory(Eligible(candidates, q)) <==> exists x, y :: Conflict(x, y, candidates, q)
  {
    hide HighestAuthority, Leads, Eligible;
    forall x ensures
      x in Eligible(candidates, q) && HighestAuthority(Eligible(candidates, q), x) <==> Leads(x, candidates, q)
    {
      LeadsMeans(candidates, q, x);
    }
    forall x, y | Leads(x, candidates, q) && Leads(y, candidates, q)
      ensures Payload(x) != Payload(y) <==> exists t, u :: SaysText(x, t) && SaysText(y, u) && t != u
    {
      LeadsIsCandidate(candidates, q, x);
      LeadsIsCandidate(candidates, q, y);
      SaysItsPayload(x);
      SaysItsPayload(y);
    }
    hide Payload, SaysText;
    if x, y :| Conflict(x, y, candidates, q) {
      assert Payload(x) != Payload(y);
    }
    if Contradictory(Eligible(candidates, q)) {
      var x, y :| x in Eligible(candidates, q) && y in Eligible(candidates, q) && x.claimKey == y.claimKey
        && HighestAuthority(Eligible(candidates, q), x) && HighestAuthority(Eligible(candidates, q), y)
        && Payload(x) != Payload(y);
      assert Conflict(x, y, candidates, q);
    }
  }

  lemma LeadsIsCandidate(candidates: seq<Item>, q: Request, x: Item)
    requires Leads(x, candidates, q) && SoundItems(candidates)
    ensures SoundItem(x)
  {
    hide SoundItem;
  }

  lemma SaysItsPayload(x: Item)
    requires SoundItem(x)
    ensures SaysText(x, Payload(x)) && forall t :: SaysText(x, t) ==> t == Payload(x)
  {
  }

  /** The recipe is looked at first, then the run, their roles, the grants and the candidates; then two leading items
      that disagree on a claim, and last a required kind that is not selected. */
  lemma RefusedContextIff(candidates: seq<Item>, q: Request)
    ensures var recipe, run, role := SoundRecipe(q.recipe), SoundRun(q.run), q.run.role == q.recipe.role;
      var sound := recipe && run && role && SoundGrants(q.grants) && SoundItems(candidates);
      match Compile(candidates, q)
      case Failure(InvalidRecipe) => !recipe
      case Failure(InvalidRun) => recipe && !run
      case Failure(RoleMismatch) => recipe && run && !role
      case Failure(InvalidGrant) => recipe && run && role && !SoundGrants(q.grants)
      case Failure(InvalidCandidate) =>
        recipe && run && role && SoundGrants(q.grants) && !SoundItems(candidates)
      case Failure(EqualAuthorityConflict) => sound && exists x, y :: Conflict(x, y, candidates, q)
      case Failure(RequiredKindsUnavailable) =>
        && sound && (forall x, y :: !Conflict(x, y, candidates, q))
        && exists kind :: KindMissing(kind, candidates, q)
      case Success(_) =>
        && sound && (forall x, y :: !Conflict(x, y, candidates, q))
        && forall kind :: !KindMissing(kind, candidates, q)
  {
    SoundRequestIff(q);
    SoundGrantsIff(q.grants);
    SoundItemsIff(candidates);
    if SoundItems(candidates) {
      ConflictMeans(candidates, q);
    }
    KindMissingMeans(candidates, q);
    hide Selection, Exclusions, Eligible, Contradictory, ValidCandidates, ValidRecipe, ValidRun, ValidGrant,
      KindsCovered, ManifestOf, SoundRecipe, SoundRun, SoundGrants, SoundItems, Conflict, KindMissing;
  }

  lemma KindMissingMeans(candidates: seq<Item>, q: Request)
    ensures KindsCovered(q.recipe.requiredKinds, Selection(candidates, q))
      <==> forall kind :: !KindMissing(kind, candidates, q)
  {
    hide Selection;
    var selection := Selection(candidates, q);
    forall kind | kind in q.recipe.requiredKinds
      ensures KindMissing(kind, candidates, q) <==> !exists x :: x in selection && x.kind == kind
    {
    }
  }
}
