/** The compiler as it runs: lists that grow while candidates are screened, grouped by claim,
    resolved, sorted and packed. */
module ContextEngine {
  import opened Orders
  import opened Collections
  import opened ContextCompiler
  import opened ContextProperties

  /** The specification's view of one compilation, fixed before the loops start. `gone` lists the
      candidates excluded so far, in the order in which their exclusions were written. */
  ghost predicate Excluded(gone: seq<Item>, exclusions: seq<Exclusion>, candidates: seq<Item>, q: Request) {
    && exclusions == Map(Excluding(Eligible(candidates, q), Selection(candidates, q), q), gone)
    && NoDuplicates(gone)
  }

  lemma ExcludeOne(
    gone: seq<Item>, exclusions: seq<Exclusion>, candidates: seq<Item>, q: Request, x: Item, reason: string)
    requires Excluded(gone, exclusions, candidates, q) && x !in gone
    requires ReasonFor(x, Eligible(candidates, q), Selection(candidates, q), q) == Some(reason)
    ensures Excluded(gone + [x], exclusions + [Exclusion(x.id, reason)], candidates, q)
  {
    hide Eligible, Selection, ReasonFor;
    var f := Excluding(Eligible(candidates, q), Selection(candidates, q), q);
    assert f(x) == Exclusion(x.id, reason);
    MapAppend(f, gone, [x]);
    AppendNoDuplicates(gone, [x]);
  }

  function Screened(q: Request): Item -> bool {
    (x: Item) => Screen(x, q).Some?
  }

  lemma NoneExcluded(candidates: seq<Item>, q: Request)
    ensures Excluded([], [], candidates, q)
  {
  }

  /** First loop: set aside what fails a check, keep the rest. */
  method ScreenAll(candidates: seq<Item>, q: Request)
    returns (eligible: seq<Item>, exclusions: seq<Exclusion>, ghost gone: seq<Item>)
    requires NoDuplicates(candidates)
    ensures eligible == Filter(candidates, Passes(q))
    ensures gone == Filter(candidates, Screened(q))
    ensures Excluded(gone, exclusions, candidates, q)
  {
    hide Screen, Selection, Excluded, Eligible;
    eligible, exclusions, gone := [], [], [];
    NoneExcluded(candidates, q);
    for i := 0 to |candidates|
      invariant eligible == Filter(candidates[..i], Passes(q))
      invariant gone == Filter(candidates[..i], Screened(q))
      invariant Excluded(gone, exclusions, candidates, q)
    {
      var item := candidates[i];
      FilterStep(candidates, i, Passes(q));
      FilterStep(candidates, i, Screened(q));
      var reason := Screen(item, q);
      if reason.Some? {
        ExcludeOne(gone, exclusions, candidates, q, item, reason.value);
        exclusions := exclusions + [Exclusion(item.id, reason.value)];
        gone := gone + [item];
      } else {
        eligible := eligible + [item];
      }
    }
    assert candidates[..|candidates|] == candidates;
  }

  /** Groups hold, for every claim met so far and no other, its items in order. */
  ghost predicate Grouped(items: seq<Item>, order: seq<string>, groups: map<string, seq<Item>>) {
    && NoDuplicates(order)
    && (forall k :: k in order <==> exists x :: x in items && x.claimKey == k)
    && (forall k :: k in order ==> k in groups && groups[k] == Filter(items, OfClaim(k)))
  }

  lemma GroupedStep(
    items: seq<Item>, order: seq<string>, groups: map<string, seq<Item>>, x: Item,
    order': seq<string>, groups': map<string, seq<Item>>)
    requires Grouped(items, order, groups)
    requires order' == if x.claimKey in order then order else order + [x.claimKey]
    requires groups' == groups[x.claimKey := (if x.claimKey in order then groups[x.claimKey] else []) + [x]]
    ensures Grouped(items + [x], order', groups')
  {
    hide Filter;
    forall k | k in order' ensures k in groups' && groups'[k] == Filter(items + [x], OfClaim(k)) {
      GroupGrows(items, x, k);
      if k == x.claimKey && k !in order {
        FilterNone(items, OfClaim(k));
      }
    }
    forall k ensures k in order' <==> exists y :: y in items + [x] && y.claimKey == k {
      ClaimsGrow(items, x, k);
    }
  }

  lemma GroupGrows(items: seq<Item>, x: Item, k: string)
    ensures Filter(items + [x], OfClaim(k)) == Filter(items, OfClaim(k)) + (if x.claimKey == k then [x] else [])
  {
    FilterAppend(items, [x], OfClaim(k));
  }

  lemma ClaimsGrow(items: seq<Item>, x: Item, k: string)
    ensures (exists y :: y in items + [x] && y.claimKey == k) <==>
      (exists y :: y in items && y.claimKey == k) || x.claimKey == k
  {
    assert x in items + [x];
    if y :| y in items && y.claimKey == k {
      assert y in items + [x];
    }
  }

  /** The eligible items grouped by what they claim, each group in the order they came. */
  method GroupByClaim(items: seq<Item>) returns (order: seq<string>, groups: map<string, seq<Item>>)
    ensures Grouped(items, order, groups)
  {
    order, groups := [], map[];
    for i := 0 to |items|
      invariant Grouped(items[..i], order, groups)
    {
      var item := items[i];
      ghost var order0, groups0 := order, groups;
      assert items[..i + 1] == items[..i] + [item];
      if item.claimKey in order {
        groups := groups[item.claimKey := groups[item.claimKey] + [item]];
      } else {
        assert [] + [item] == [item];
        groups := groups[item.claimKey := [item]];
        order := order + [item.claimKey];
      }
      GroupedStep(items[..i], order0, groups0, item, order, groups);
    }
    assert items[..|items|] == items;
  }

  function OfAuthority(level: int): Item -> bool {
    (x: Item) => Authority(x.sourceType) == level
  }

  ghost predicate OneClaim(items: seq<Item>) {
    forall x, y :: x in items && y in items ==> x.claimKey == y.claimKey
  }

  /** `level` is the highest authority among the items. */
  ghost predicate Highest(items: seq<Item>, level: int) {
    && (forall x :: x in items ==> Authority(x.sourceType) <= level)
    && exists x :: x in items && Authority(x.sourceType) == level
  }

  lemma HighestStep(items: seq<Item>, i: nat, level: int)
    requires 0 < i < |items| && Highest(items[..i], level)
    ensures var own := Authority(items[i].sourceType);
      Highest(items[..i + 1], if own > level then own else level)
  {
    hide Authority;
    assert items[..i + 1] == items[..i] + [items[i]];
    var x :| x in items[..i] && Authority(x.sourceType) == level;
    assert x in items[..i + 1] && items[i] in items[..i + 1];
  }

  lemma HighestStart(items: seq<Item>)
    requires items != []
    ensures Highest(items[..1], Authority(items[0].sourceType))
  {
    assert items[..1] == [items[0]];
  }

  lemma LeadersAre(items: seq<Item>, level: int)
    requires OneClaim(items) && Highest(items, level)
    ensures var leaders := Filter(items, OfAuthority(level));
      leaders != [] && forall x :: x in leaders <==> x in items && HighestAuthority(items, x)
  {
    hide Authority;
    var top :| top in items && Authority(top.sourceType) == level;
    assert top in Filter(items, OfAuthority(level));
  }

  /** The leaders of a claim disagree exactly when the claim is contradictory. */
  lemma LeadersDisagree(items: seq<Item>, leaders: seq<Item>)
    requires OneClaim(items)
    requires forall x :: x in leaders <==> x in items && HighestAuthority(items, x)
    ensures (exists x, y :: x in leaders && y in leaders && Payload(x) != Payload(y)) <==> Contradictory(items)
  {
    hide HighestAuthority, Payload;
    if x, y :| x in leaders && y in leaders && Payload(x) != Payload(y) {
      assert HighestAuthority(items, x) && HighestAuthority(items, y);
    }
    if Contradictory(items) {
      var x, y :| x in items && y in items && x.claimKey == y.claimKey
        && HighestAuthority(items, x) && HighestAuthority(items, y) && Payload(x) != Payload(y);
      assert x in leaders && y in leaders;
    }
  }

  /** The first of the leaders, newest first, takes precedence over every item. */
  lemma FirstLeaderWins(items: seq<Item>, leaders: seq<Item>)
    requires OneClaim(items) && leaders != []
    requires forall x :: x in leaders <==> x in items && HighestAuthority(items, x)
    ensures var sorted := SortBy(leaders, PrecedenceOrder());
      sorted != [] && sorted[0] in items && Wins(items, sorted[0])
  {
    hide Authority, SortBy, StrLeq, TotalPreorder, Sorted;
    var sorted := SortBy(leaders, PrecedenceOrder());
    PrecedenceIsTotal();
    SortFacts(leaders, PrecedenceOrder());
    assert sorted[0] in leaders;
    forall y | y in items ensures Precedes(sorted[0], y) {
      if y in leaders {
        HeadIsLeast(sorted, y, PrecedenceOrder());
        assert PrecedenceOrder()(sorted[0], y);
      } else {
        LeaderOutranks(items, sorted[0], y);
      }
    }
  }

  lemma LeaderOutranks(items: seq<Item>, x: Item, y: Item)
    requires OneClaim(items) && x in items && y in items && HighestAuthority(items, x) && !HighestAuthority(items, y)
    ensures Authority(x.sourceType) > Authority(y.sourceType)
  {
    hide Authority;
  }

  /** The strongest item of one claim, or nothing when its strongest items disagree. */
  method ResolveClaim(items: seq<Item>) returns (winner: Option<Item>)
    requires items != [] && OneClaim(items)
    ensures winner.None? <==> Contradictory(items)
    ensures winner.Some? ==> winner.value in items && Wins(items, winner.value)
  {
    hide *;
    var highest := Authority(items[0].sourceType);
    HighestStart(items);
    for i := 1 to |items|
      invariant Highest(items[..i], highest)
    {
      HighestStep(items, i, highest);
      if Authority(items[i].sourceType) > highest {
        highest := Authority(items[i].sourceType);
      }
    }
    assert items[..|items|] == items;
    var leaders := Filter(items, OfAuthority(highest));
    LeadersAre(items, highest);
    LeadersDisagree(items, leaders);
    if exists x, y :: x in leaders && y in leaders && Payload(x) != Payload(y) { return None; }
    var newestFirst := SortBy(leaders, PrecedenceOrder());
    FirstLeaderWins(items, leaders);
    winner := Some(newestFirst[0]);
  }

  /** Within one claim's group the strongest items are those of all eligible items. */
  lemma GroupMatters(eligible: seq<Item>, claimKey: string)
    ensures var group := Filter(eligible, OfClaim(claimKey));
      && (Contradictory(group) ==> Contradictory(eligible))
      && (forall x :: x in group ==> (Wins(group, x) <==> Wins(eligible, x)))
      && (forall x :: x in group ==> (HighestAuthority(group, x) <==> HighestAuthority(eligible, x)))
  {
    var group := Filter(eligible, OfClaim(claimKey));
    assert forall y :: y in group <==> y in eligible && y.claimKey == claimKey;
  }

  /** A contradiction among all eligible items is one within some claim's group. */
  lemma ContradictionHasGroup(eligible: seq<Item>, order: seq<string>, groups: map<string, seq<Item>>)
    returns (k: string)
    requires Grouped(eligible, order, groups) && Contradictory(eligible)
    ensures k in order && Contradictory(groups[k])
  {
    var x, y :| x in eligible && y in eligible && x.claimKey == y.claimKey
      && HighestAuthority(eligible, x) && HighestAuthority(eligible, y) && Payload(x) != Payload(y);
    k := x.claimKey;
    GroupMatters(eligible, k);
    assert x in groups[k] && y in groups[k];
  }

  lemma SpeakerIs(eligible: seq<Item>, w: Item)
    requires w in eligible && Wins(eligible, w)
    ensures SpeakerId(eligible, w.claimKey) == w.id
  {
    var speakers := Filter(eligible, Speaks(eligible, w.claimKey));
    assert w in speakers;
    assert speakers[0] in speakers;
    WinnersAgree(eligible, speakers[0], w);
  }

  /** An item of a claim loses it exactly when it is not the speaker. */
  lemma LosesIffOther(eligible: seq<Item>, w: Item, x: Item)
    requires NoDuplicates(Map(ItemId(), eligible))
    requires w in eligible && Wins(eligible, w) && x in eligible && x.claimKey == w.claimKey
    ensures x.id == w.id <==> Wins(eligible, x)
  {
    if Wins(eligible, x) {
      WinnersAgree(eligible, x, w);
    }
    if x.id == w.id {
      DistinctImages(ItemId(), eligible);
      assert ItemId()(x) == ItemId()(w);
    }
  }

  ghost predicate OneSpeakerEach(resolved: seq<Item>, order: seq<string>, eligible: seq<Item>) {
    && |resolved| == |order|
    && forall i :: 0 <= i < |order| ==>
         resolved[i].claimKey == order[i] && resolved[i] in eligible && Wins(eligible, resolved[i])
  }

  lemma SpeakersAreWinners(resolved: seq<Item>, order: seq<string>, groups: map<string, seq<Item>>, eligible: seq<Item>)
    requires NoDuplicates(Map(ItemId(), eligible)) && Grouped(eligible, order, groups)
    requires OneSpeakerEach(resolved, order, eligible)
    ensures Permutation(resolved, Filter(eligible, WinsIn(eligible)))
  {
    var winners := Filter(eligible, WinsIn(eligible));
    DistinctImages(ItemId(), eligible);
    FilterNoDuplicates(eligible, WinsIn(eligible));
    forall i, j | 0 <= i < j < |resolved| ensures resolved[i] != resolved[j] {
      assert order[i] != order[j];
    }
    forall x ensures x in resolved <==> x in winners {
      if x in winners {
        assert x.claimKey in order;
        var i :| 0 <= i < |order| && order[i] == x.claimKey;
        LosesIffOther(eligible, resolved[i], x);
        assert ItemId()(x) == ItemId()(resolved[i]);
      }
    }
    SameMembersPermutation(resolved, winners);
  }

  /** What is gone once the claims in `order` are settled: screened items and losers of those claims. */
  ghost predicate GoneAfter(gone: seq<Item>, order: seq<string>, candidates: seq<Item>, q: Request) {
    var eligible := Eligible(candidates, q);
    forall x :: x in gone <==>
      (x in candidates && Screen(x, q).Some?)
      || (x in eligible && x.claimKey in order && !Wins(eligible, x))
  }

  ghost predicate LosersGone(gone: seq<Item>, gone0: seq<Item>, items: seq<Item>, eligible: seq<Item>) {
    forall x :: x in gone <==> x in gone0 || (x in items && !Wins(eligible, x))
  }

  lemma LosersStep(gone: seq<Item>, gone0: seq<Item>, items: seq<Item>, i: nat, eligible: seq<Item>)
    requires i < |items| && LosersGone(gone, gone0, items[..i], eligible)
    ensures LosersGone(if Wins(eligible, items[i]) then gone else gone + [items[i]], gone0, items[..i + 1], eligible)
  {
    hide Wins;
    assert items[..i + 1] == items[..i] + [items[i]];
  }

  lemma LosersDone(
    gone: seq<Item>, gone0: seq<Item>, items: seq<Item>, claimKey: string, order: seq<string>,
    candidates: seq<Item>, q: Request)
    requires items == Filter(Eligible(candidates, q), OfClaim(claimKey))
    requires GoneAfter(gone0, order, candidates, q) && LosersGone(gone, gone0, items, Eligible(candidates, q))
    ensures GoneAfter(gone, order + [claimKey], candidates, q)
  {
    hide Eligible, Screen, Wins;
    var eligible := Eligible(candidates, q);
    forall x ensures x in gone <==>
      (x in candidates && Screen(x, q).Some?)
      || (x in eligible && x.claimKey in order + [claimKey] && !Wins(eligible, x))
    {
      assert x in items <==> x in eligible && x.claimKey == claimKey;
      assert x.claimKey in order + [claimKey] <==> x.claimKey in order || x.claimKey == claimKey;
    }
  }

  lemma LoserIsNew(gone: seq<Item>, gone0: seq<Item>, items: seq<Item>, i: nat, claimKey: string,
                   order: seq<string>, candidates: seq<Item>, q: Request)
    requires i < |items| && items == Filter(Eligible(candidates, q), OfClaim(claimKey))
    requires NoDuplicates(items) && claimKey !in order
    requires GoneAfter(gone0, order, candidates, q) && LosersGone(gone, gone0, items[..i], Eligible(candidates, q))
    ensures items[i] !in gone && items[i] in Eligible(candidates, q) && items[i].claimKey == claimKey
    ensures Screen(items[i], q).None?
  {
    hide Screen, Wins;
    assert items[i] in items;
    assert Passes(q)(items[i]);
  }

  /** Writes the exclusions of one claim's losers. */
  method ExcludeLosers(
    items: seq<Item>, winner: Item, exclusions0: seq<Exclusion>,
    ghost gone0: seq<Item>, ghost order: seq<string>, ghost candidates: seq<Item>, ghost q: Request)
    returns (exclusions: seq<Exclusion>, ghost gone: seq<Item>)
    requires NoDuplicates(Map(ItemId(), candidates))
    requires items == Filter(Eligible(candidates, q), OfClaim(winner.claimKey))
    requires winner in items && Wins(Eligible(candidates, q), winner)
    requires winner.claimKey !in order
    requires Excluded(gone0, exclusions0, candidates, q) && GoneAfter(gone0, order, candidates, q)
    ensures Excluded(gone, exclusions, candidates, q)
    ensures GoneAfter(gone, order + [winner.claimKey], candidates, q)
  {
    hide *;
    ghost var eligible := Eligible(candidates, q);
    exclusions, gone := exclusions0, gone0;
    GroupIsDistinct(items, winner.claimKey, candidates, q);
    LosersInit(gone, items, eligible);
    for i := 0 to |items|
      invariant Excluded(gone, exclusions, candidates, q)
      invariant LosersGone(gone, gone0, items[..i], eligible)
    {
      var item := items[i];
      LoserIsNew(gone, gone0, items, i, winner.claimKey, order, candidates, q);
      LosersStep(gone, gone0, items, i, eligible);
      LosesIffOther(eligible, winner, item);
      if item.id != winner.id {
        var reason := SupersededBy(winner.id);
        LoserReason(candidates, q, winner, item);
        ExcludeOne(gone, exclusions, candidates, q, item, reason);
        exclusions := exclusions + [Exclusion(item.id, reason)];
        gone := gone + [item];
      }
    }
    assert items[..|items|] == items;
    LosersDone(gone, gone0, items, winner.claimKey, order, candidates, q);
  }

  /** The items of one claim's group, and their ids, are distinct. */
  lemma GroupIsDistinct(items: seq<Item>, claimKey: string, candidates: seq<Item>, q: Request)
    requires NoDuplicates(Map(ItemId(), candidates)) && items == Filter(Eligible(candidates, q), OfClaim(claimKey))
    ensures NoDuplicates(items) && NoDuplicates(Map(ItemId(), Eligible(candidates, q)))
    ensures forall x :: x in items ==> x in Eligible(candidates, q)
  {
    hide Screen, NoDuplicates, Map;
    DistinctImages(ItemId(), candidates);
    FilterNoDuplicates(candidates, Passes(q));
    FilterNoDuplicates(Eligible(candidates, q), OfClaim(claimKey));
    ImagesNoDuplicates(ItemId(), Eligible(candidates, q));
  }

  /** Why an item that passes the checks but is not its claim's speaker is left out. */
  lemma LoserReason(candidates: seq<Item>, q: Request, w: Item, x: Item)
    requires w in Eligible(candidates, q) && Wins(Eligible(candidates, q), w)
    requires x in Eligible(candidates, q) && x.claimKey == w.claimKey && !Wins(Eligible(candidates, q), x)
    requires Screen(x, q).None?
    ensures ReasonFor(x, Eligible(candidates, q), Selection(candidates, q), q) == Some(SupersededBy(w.id))
  {
    hide Screen, Wins, Selection, Eligible, SupersededBy, SpeakerId;
    SpeakerIs(Eligible(candidates, q), w);
  }

  lemma LosersInit(gone0: seq<Item>, items: seq<Item>, eligible: seq<Item>)
    ensures LosersGone(gone0, gone0, items[..0], eligible)
  {
  }

  /** The claims in `order` are settled: each has its speaker and its losers are excluded. */
  ghost predicate Settled(
    winners: seq<Item>, order: seq<string>, groups: map<string, seq<Item>>,
    exclusions: seq<Exclusion>, gone: seq<Item>, candidates: seq<Item>, q: Request)
  {
    && OneSpeakerEach(winners, order, Eligible(candidates, q))
    && (forall k :: k in order ==> k in groups && !Contradictory(groups[k]))
    && Excluded(gone, exclusions, candidates, q) && GoneAfter(gone, order, candidates, q)
  }

  /** A claim's group is not empty and speaks of that claim only. */
  lemma GroupOf(eligible: seq<Item>, order: seq<string>, groups: map<string, seq<Item>>, j: nat)
    requires Grouped(eligible, order, groups) && j < |order|
    ensures order[j] in groups && groups[order[j]] == Filter(eligible, OfClaim(order[j]))
    ensures groups[order[j]] != []
    ensures forall x :: x in groups[order[j]] ==> x in eligible && x.claimKey == order[j]
    ensures order[j] !in order[..j]
  {
    assert order[j] in order;
    var member :| member in eligible && member.claimKey == order[j];
    assert member in groups[order[j]];
  }

  lemma SpeakerAdded(resolved: seq<Item>, order: seq<string>, eligible: seq<Item>, w: Item, claimKey: string)
    requires OneSpeakerEach(resolved, order, eligible)
    requires w in eligible && w.claimKey == claimKey && Wins(eligible, w)
    ensures OneSpeakerEach(resolved + [w], order + [claimKey], eligible)
  {
    hide Wins;
  }

  /** Settles one more claim, or reports its contradiction. */
  method SettleClaim(
    items: seq<Item>, exclusions0: seq<Exclusion>, winners: seq<Item>, ghost j: nat, ghost order: seq<string>,
    ghost groups: map<string, seq<Item>>, ghost gone0: seq<Item>, ghost candidates: seq<Item>, ghost q: Request)
    returns (winner: Option<Item>, exclusions: seq<Exclusion>, ghost gone: seq<Item>)
    requires NoDuplicates(Map(ItemId(), candidates)) && Grouped(Eligible(candidates, q), order, groups)
    requires j < |order| && order[j] in groups && items == groups[order[j]]
    requires Settled(winners, order[..j], groups, exclusions0, gone0, candidates, q)
    ensures winner.None? ==> Contradictory(Eligible(candidates, q))
    ensures winner.Some? ==>
      Settled(winners + [winner.value], order[..j + 1], groups, exclusions, gone, candidates, q)
  {
    hide *;
    ghost var eligible := Eligible(candidates, q);
    GroupOf(eligible, order, groups, j);
    GroupMatters(eligible, order[j]);
    SettledFacts(winners, order[..j], groups, exclusions0, gone0, candidates, q);
    exclusions, gone := exclusions0, gone0;
    SameClaim(items, order[j]);
    winner := ResolveClaim(items);
    if winner.Some? {
      SpeakerAdded(winners, order[..j], eligible, winner.value, order[j]);
      exclusions, gone := ExcludeLosers(items, winner.value, exclusions0, gone0, order[..j], candidates, q);
      assert order[..j + 1] == order[..j] + [order[j]];
      SettledStep(winners, winner.value, order, j, groups, exclusions0, exclusions, gone0, gone, candidates, q);
    }
  }

  lemma SameClaim(items: seq<Item>, claimKey: string)
    requires forall x :: x in items ==> x.claimKey == claimKey
    ensures OneClaim(items)
  {
  }

  lemma SettledFacts(
    winners: seq<Item>, order: seq<string>, groups: map<string, seq<Item>>,
    exclusions: seq<Exclusion>, gone: seq<Item>, candidates: seq<Item>, q: Request)
    requires Settled(winners, order, groups, exclusions, gone, candidates, q)
    ensures OneSpeakerEach(winners, order, Eligible(candidates, q))
    ensures Excluded(gone, exclusions, candidates, q) && GoneAfter(gone, order, candidates, q)
  {
    hide Eligible, Excluded, GoneAfter, OneSpeakerEach, Contradictory;
  }

  /** One more claim is settled. */
  lemma SettledStep(
    winners: seq<Item>, winner: Item, order: seq<string>, j: nat, groups: map<string, seq<Item>>,
    exclusions0: seq<Exclusion>, exclusions: seq<Exclusion>, gone0: seq<Item>, gone: seq<Item>,
    candidates: seq<Item>, q: Request)
    requires j < |order| && Settled(winners, order[..j], groups, exclusions0, gone0, candidates, q)
    requires order[j] in groups && !Contradictory(groups[order[j]])
    requires order[..j + 1] == order[..j] + [order[j]]
    requires OneSpeakerEach(winners + [winner], order[..j] + [order[j]], Eligible(candidates, q))
    requires Excluded(gone, exclusions, candidates, q) && GoneAfter(gone, order[..j] + [order[j]], candidates, q)
    ensures Settled(winners + [winner], order[..j + 1], groups, exclusions, gone, candidates, q)
  {
    hide Eligible, Excluded, GoneAfter, OneSpeakerEach, Contradictory;
  }

  /** Second loop: settle every claim, or stop at a contradiction. */
  method ResolveAll(
    order: seq<string>, groups: map<string, seq<Item>>, exclusions0: seq<Exclusion>,
    ghost gone0: seq<Item>, ghost candidates: seq<Item>, ghost q: Request)
    returns (resolved: Option<seq<Item>>, exclusions: seq<Exclusion>, ghost gone: seq<Item>)
    requires NoDuplicates(Map(ItemId(), candidates))
    requires Grouped(Eligible(candidates, q), order, groups)
    requires Excluded(gone0, exclusions0, candidates, q) && GoneAfter(gone0, [], candidates, q)
    ensures resolved.None? <==> Contradictory(Eligible(candidates, q))
    ensures resolved.Some? ==>
      && Permutation(resolved.value, Filter(Eligible(candidates, q), WinsIn(Eligible(candidates, q))))
      && Excluded(gone, exclusions, candidates, q) && GoneAfter(gone, order, candidates, q)
  {
    hide Settled, Eligible, Grouped, GoneAfter, Excluded, Contradictory, Wins;
    var winners: seq<Item> := [];
    exclusions, gone := exclusions0, gone0;
    NoneSettled(order, groups, exclusions, gone, candidates, q);
    for j := 0 to |order|
      invariant Settled(winners, order[..j], groups, exclusions, gone, candidates, q)
    {
      GroupOf(Eligible(candidates, q), order, groups, j);
      var winner;
      winner, exclusions, gone :=
        SettleClaim(groups[order[j]], exclusions, winners, j, order, groups, gone, candidates, q);
      if winner.None? {
        return None, exclusions, gone;
      }
      winners := winners + [winner.value];
    }
    assert order[..|order|] == order;
    AllSettled(winners, order, groups, exclusions, gone, candidates, q);
    resolved := Some(winners);
  }

  lemma NoneSettled(
    order: seq<string>, groups: map<string, seq<Item>>,
    exclusions: seq<Exclusion>, gone: seq<Item>, candidates: seq<Item>, q: Request)
    requires Excluded(gone, exclusions, candidates, q) && GoneAfter(gone, [], candidates, q)
    ensures Settled([], order[..0], groups, exclusions, gone, candidates, q)
  {
    hide Excluded, GoneAfter;
    assert order[..0] == [];
  }

  lemma AllSettled(
    winners: seq<Item>, order: seq<string>, groups: map<string, seq<Item>>,
    exclusions: seq<Exclusion>, gone: seq<Item>, candidates: seq<Item>, q: Request)
    requires NoDuplicates(Map(ItemId(), candidates)) && Grouped(Eligible(candidates, q), order, groups)
    requires Settled(winners, order, groups, exclusions, gone, candidates, q)
    ensures !Contradictory(Eligible(candidates, q))
    ensures Permutation(winners, Filter(Eligible(candidates, q), WinsIn(Eligible(candidates, q))))
    ensures Excluded(gone, exclusions, candidates, q) && GoneAfter(gone, order, candidates, q)
  {
    hide Excluded, GoneAfter, Contradictory;
    var eligible := Eligible(candidates, q);
    DistinctImages(ItemId(), candidates);
    FilterNoDuplicates(candidates, Passes(q));
    ImagesNoDuplicates(ItemId(), eligible);
    SpeakersAreWinners(winners, order, groups, eligible);
    if Contradictory(eligible) {
      var k := ContradictionHasGroup(eligible, order, groups);
      assert false;
    }
  }

  /** After `i` items: what is taken, its size, the packing still to do, and what is excluded. */
  ghost predicate Packing(
    i: nat, resolved: seq<Item>, selected: seq<Item>, totalBytes: int, exclusions: seq<Exclusion>,
    gone: seq<Item>, gone0: seq<Item>, candidates: seq<Item>, q: Request)
  {
    var size := q.json.size;
    var picks := Pack(resolved, q.recipe.maxItems, q.recipe.maxBytes, size);
    && i <= |resolved|
    && selected == Picked(resolved[..i], picks[..i]) && totalBytes == Bytes(selected, size)
    && picks[i..] == Pack(resolved[i..], q.recipe.maxItems - |selected|, q.recipe.maxBytes - totalBytes, size)
    && Excluded(gone, exclusions, candidates, q)
    && (forall x :: x in gone <==> x in gone0 || (x in resolved[..i] && x !in Picked(resolved, picks)))
  }

  ghost predicate ReadyToPack(resolved: seq<Item>, gone: seq<Item>, candidates: seq<Item>, q: Request) {
    && resolved == Resolved(Eligible(candidates, q), q.recipe.kindPriority) && NoDuplicates(resolved)
    && (forall x :: x in resolved ==>
          Screen(x, q).None? && Wins(Eligible(candidates, q), x) && x !in gone)
  }

  lemma SelectionIsPicked(resolved: seq<Item>, candidates: seq<Item>, q: Request)
    requires resolved == Resolved(Eligible(candidates, q), q.recipe.kindPriority)
    ensures Selection(candidates, q)
         == Picked(resolved, Pack(resolved, q.recipe.maxItems, q.recipe.maxBytes, q.json.size))
  {
    hide Eligible, Resolved, Picked, Pack;
  }

  /** Packing proceeds by taking the next item exactly when it fits both budgets. */
  lemma PackingStep(
    i: nat, resolved: seq<Item>, selected: seq<Item>, totalBytes: int, exclusions: seq<Exclusion>,
    gone: seq<Item>, gone0: seq<Item>, candidates: seq<Item>, q: Request)
    requires ReadyToPack(resolved, gone0, candidates, q) && i < |resolved|
    requires Packing(i, resolved, selected, totalBytes, exclusions, gone, gone0, candidates, q)
    ensures var item := resolved[i];
      var n := q.json.size(Render(item));
      if |selected| >= q.recipe.maxItems || totalBytes + n > q.recipe.maxBytes then
        Packing(i + 1, resolved, selected, totalBytes,
                exclusions + [Exclusion(item.id, BudgetExhausted())], gone + [item], gone0, candidates, q)
      else
        Packing(i + 1, resolved, selected + [item], totalBytes + n, exclusions, gone, gone0, candidates, q)
  {
    hide Eligible, Screen, Wins, Resolved, Selection, Excluded, Pack, Picked, Render, Bytes, BudgetExhausted;
    var item, size := resolved[i], q.json.size;
    var picks := Pack(resolved, q.recipe.maxItems, q.recipe.maxBytes, size);
    SelectionIsPicked(resolved, candidates, q);
    assert item in resolved;
    PickedStep(resolved, picks, i);
    PickedExactly(resolved, picks, i);
    PackStep(resolved, i, q.recipe.maxItems - |selected|, q.recipe.maxBytes - totalBytes, size);
    assert picks[i..][0] == picks[i] && picks[i..][1..] == picks[i + 1..];
    assert resolved[..i + 1] == resolved[..i] + [item];
    BytesAppend(selected, item, size);
    if !picks[i] {
      ExcludeOne(gone, exclusions, candidates, q, item, BudgetExhausted());
    }
  }

  lemma PackStep(items: seq<Item>, i: nat, slots: int, room: int, size: Rendered -> nat)
    requires i < |items|
    ensures var n := size(Render(items[i]));
      Pack(items[i..], slots, room, size)
      == if slots <= 0 || n > room then [false] + Pack(items[i + 1..], slots, room, size)
         else [true] + Pack(items[i + 1..], slots - 1, room - n, size)
  {
    assert items[i..][0] == items[i] && items[i..][1..] == items[i + 1..];
  }

  /** Third loop: take items in order while both budgets last. */
  method PackAll(
    resolved: seq<Item>, recipe: Recipe, size: Rendered -> nat, exclusions0: seq<Exclusion>,
    ghost gone0: seq<Item>, ghost candidates: seq<Item>, ghost q: Request)
    returns (selected: seq<Item>, totalBytes: int, exclusions: seq<Exclusion>, ghost gone: seq<Item>)
    requires recipe == q.recipe && size == q.json.size
    requires ReadyToPack(resolved, gone0, candidates, q) && Excluded(gone0, exclusions0, candidates, q)
    ensures selected == Selection(candidates, q) && totalBytes == Bytes(selected, size)
    ensures Excluded(gone, exclusions, candidates, q)
    ensures forall x :: x in gone <==> x in gone0 || (x in resolved && x !in selected)
  {
    selected, totalBytes, exclusions, gone := [], 0, exclusions0, gone0;
    hide *;
    PackingStart(resolved, exclusions, gone, candidates, q);
    for i := 0 to |resolved|
      invariant Packing(i, resolved, selected, totalBytes, exclusions, gone, gone0, candidates, q)
    {
      PackingStep(i, resolved, selected, totalBytes, exclusions, gone, gone0, candidates, q);
      var item := resolved[i];
      var n := size(Render(item));
      if |selected| >= recipe.maxItems || totalBytes + n > recipe.maxBytes {
        exclusions := exclusions + [Exclusion(item.id, BudgetExhausted())];
        gone := gone + [item];
      } else {
        selected := selected + [item];
        totalBytes := totalBytes + n;
      }
    }
    PackingDone(resolved, selected, totalBytes, exclusions, gone, gone0, candidates, q);
  }

  lemma PackingStart(
    resolved: seq<Item>, exclusions: seq<Exclusion>, gone: seq<Item>, candidates: seq<Item>, q: Request)
    requires Excluded(gone, exclusions, candidates, q)
    ensures Packing(0, resolved, [], 0, exclusions, gone, gone, candidates, q)
  {
    hide Excluded;
    assert resolved[0..] == resolved;
  }

  lemma PackingDone(
    resolved: seq<Item>, selected: seq<Item>, totalBytes: int, exclusions: seq<Exclusion>,
    gone: seq<Item>, gone0: seq<Item>, candidates: seq<Item>, q: Request)
    requires ReadyToPack(resolved, gone0, candidates, q)
    requires Packing(|resolved|, resolved, selected, totalBytes, exclusions, gone, gone0, candidates, q)
    ensures selected == Selection(candidates, q) && totalBytes == Bytes(selected, q.json.size)
    ensures Excluded(gone, exclusions, candidates, q)
    ensures forall x :: x in gone <==> x in gone0 || (x in resolved && x !in selected)
  {
    hide Excluded, Screen, Wins;
    var picks := Pack(resolved, q.recipe.maxItems, q.recipe.maxBytes, q.json.size);
    assert resolved[..|resolved|] == resolved && picks[..|resolved|] == picks;
  }

  lemma {:induction false} BytesAppend(items: seq<Item>, x: Item, size: Rendered -> nat)
    ensures Bytes(items + [x], size) == Bytes(items, size) + size(Render(x))
  {
    if items == [] {
    } else {
      assert (items + [x])[1..] == items[1..] + [x];
      BytesAppend(items[1..], x, size);
    }
  }

  /** The exclusions written by the three loops, sorted, are the manifest's exclusions. */
  lemma GoneIsLeftOut(gone: seq<Item>, exclusions: seq<Exclusion>, candidates: seq<Item>, q: Request)
    requires NoDuplicates(Map(ItemId(), candidates)) && Excluded(gone, exclusions, candidates, q)
    requires forall x :: x in gone <==> x in candidates && x !in Selection(candidates, q)
    ensures SortBy(exclusions, ExclusionOrder()) == Exclusions(candidates, q)
  {
    var eligible, selection := Eligible(candidates, q), Selection(candidates, q);
    hide Eligible, Selection, ReasonFor;
    var out := Filter(candidates, LeftOut(eligible, selection, q));
    var f := Excluding(eligible, selection, q);
    DistinctImages(ItemId(), candidates);
    FilterNoDuplicates(candidates, LeftOut(eligible, selection, q));
    forall x | x in candidates ensures x in gone <==> x in out {
      SelectedIffNotLeftOut(candidates, q, x);
    }
    SameMembersPermutation(gone, out);
    PermutationMap(f, gone, out);
    ExclusionOrderIsTotal();
    ExclusionsSeparate(candidates, gone, f);
    SortIgnoresOrder(exclusions, Map(f, out), ExclusionOrder());
  }

  /** The whole compilation: the manifest the specification gives, or the same error. */
  method CompileContext(q: Request, candidates: seq<Item>) returns (r: Result<Manifest, ContextError>)
    ensures r == Compile(candidates, q)
  {
    hide Pack, SortBy, ReasonFor, Wins, Screen, GoneAfter;
    var error := CheckRequest(q);
    if error.Some? {
      return Failure(error.value);
    }
    if !ValidCandidates(candidates) {
      return Failure(InvalidCandidate);
    }
    DistinctImages(ItemId(), candidates);
    var eligible, exclusions, gone := ScreenAll(candidates, q);
    var order, groups := GroupByClaim(eligible);
    var winners;
    assert eligible == Eligible(candidates, q);
    hide Eligible, Selection, Excluded, Grouped;
    ScreenedAreGone(gone, candidates, q);
    winners, exclusions, gone := ResolveAll(order, groups, exclusions, gone, candidates, q);
    if winners.None? {
      return Failure(EqualAuthorityConflict);
    }
    var resolved := SortBy(winners.value, PackOrder(q.recipe.kindPriority));
    ghost var gone1 := gone;
    ResolvedFacts(winners.value, order, gone, candidates, q);
    hide ReadyToPack;
    var selected, totalBytes;
    selected, totalBytes, exclusions, gone :=
      PackAll(resolved, q.recipe, q.json.size, exclusions, gone, candidates, q);
    GoneCovers(gone, gone1, order, groups, resolved, candidates, q);
    GoneIsLeftOut(gone, exclusions, candidates, q);
    if !KindsCovered(q.recipe.requiredKinds, selected) {
      return Failure(RequiredKindsUnavailable);
    }
    r := Success(ManifestOf(selected, totalBytes, SortBy(exclusions, ExclusionOrder()), q));
  }

  lemma ScreenedAreGone(gone: seq<Item>, candidates: seq<Item>, q: Request)
    requires gone == Filter(candidates, Screened(q))
    ensures GoneAfter(gone, [], candidates, q)
  {
  }

  lemma GoneCovers(gone: seq<Item>, gone1: seq<Item>, order: seq<string>, groups: map<string, seq<Item>>,
                   resolved: seq<Item>, candidates: seq<Item>, q: Request)
    requires NoDuplicates(Map(ItemId(), candidates))
    requires Grouped(Eligible(candidates, q), order, groups) && GoneAfter(gone1, order, candidates, q)
    requires forall x :: x in resolved <==>
      x in candidates && Screen(x, q).None? && Wins(Eligible(candidates, q), x)
    requires forall x :: x in gone <==> x in gone1 || (x in resolved && x !in Selection(candidates, q))
    ensures forall x :: x in gone <==> x in candidates && x !in Selection(candidates, q)
  {
    hide Screen, Wins, Selection;
    SelectionFacts(candidates, q);
    var eligible := Eligible(candidates, q);
    forall x ensures x in gone <==> x in candidates && x !in Selection(candidates, q) {
      assert x in eligible <==> x in candidates && Passes(q)(x);
      if x in eligible {
        assert x.claimKey in order;
      }
    }
  }

  lemma ResolvedFacts(winners: seq<Item>, order: seq<string>, gone: seq<Item>, candidates: seq<Item>, q: Request)
    requires NoDuplicates(Map(ItemId(), candidates)) && GoneAfter(gone, order, candidates, q)
    requires Permutation(winners, Filter(Eligible(candidates, q), WinsIn(Eligible(candidates, q))))
    ensures var resolved := SortBy(winners, PackOrder(q.recipe.kindPriority));
      && ReadyToPack(resolved, gone, candidates, q)
      && (forall x :: x in resolved <==>
            x in candidates && Screen(x, q).None? && Wins(Eligible(candidates, q), x))
  {
    hide Screen, Wins, Eligible, GoneAfter, TotalPreorder, NoTies, Sorted, SortBy, Map;
    var eligible := Eligible(candidates, q);
    var priority := q.recipe.kindPriority;
    var spoken := Filter(eligible, WinsIn(eligible));
    EligibleFacts(candidates, q);
    FilterNoDuplicates(eligible, WinsIn(eligible));
    PackOrderIsTotal(priority);
    SamePermutation(winners, spoken);
    WinnersSeparate(winners, eligible, priority);
    SortIgnoresOrder(winners, spoken, PackOrder(priority));
    SortFacts(winners, PackOrder(priority));
    PermutationNoDuplicates(spoken, SortBy(winners, PackOrder(priority)));
    NotYetGone(gone, order, candidates, q);
  }

  lemma EligibleFacts(candidates: seq<Item>, q: Request)
    requires NoDuplicates(Map(ItemId(), candidates))
    ensures var eligible := Eligible(candidates, q);
      && NoDuplicates(eligible) && NoDuplicates(Map(ItemId(), eligible))
      && (forall x :: x in eligible <==> x in candidates && Screen(x, q).None?)
  {
    hide Screen;
    DistinctImages(ItemId(), candidates);
    FilterNoDuplicates(candidates, Passes(q));
    ImagesNoDuplicates(ItemId(), Eligible(candidates, q));
  }

  lemma WinnersSeparate(winners: seq<Item>, eligible: seq<Item>, priority: seq<Kind>)
    requires NoDuplicates(Map(ItemId(), eligible)) && forall x :: x in winners ==> x in eligible
    ensures NoTies(winners, PackOrder(priority))
  {
    PackOrderIsTotal(priority);
    DistinctImages(ItemId(), eligible);
    var order := PackOrder(priority);
    forall x, y | x in winners && y in winners && order(x, y) && order(y, x) ensures x == y {
      assert ItemId()(x) == ItemId()(y);
    }
  }

  lemma NotYetGone(gone: seq<Item>, order: seq<string>, candidates: seq<Item>, q: Request)
    requires GoneAfter(gone, order, candidates, q)
    ensures forall x :: x in candidates && Screen(x, q).None? && Wins(Eligible(candidates, q), x) ==> x !in gone
  {
    hide Screen, Wins, Eligible;
  }
}
