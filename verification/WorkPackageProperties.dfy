/** What holds of every package under every interleaving of readers and writers. */
module WorkPackageProperties {
  import opened Collections
  import opened WorkPackageStore

  function Of(packageId: string): Event -> bool {
    (e: Event) => e.aggregate.WorkPackage? && e.aggregateId == packageId
  }

  /** The events of one package, in log order. */
  function HistoryOf(log: seq<Event>, packageId: string): seq<Event> {
    Filter(log, Of(packageId))
  }

  function StatusAfter(e: Event): Status {
    match e.change
    case Creation => Planned
    case Transition(_, to) => to
    case Fact => Planned
  }

  /** The event at `k` has version `k + 1`; the first event creates, and every later one stays in the project
      and leaves the status the event before it left, by an allowed transition. */
  ghost predicate LinkedAt(h: seq<Event>, k: nat)
    requires k < |h|
  {
    && h[k].version == k + 1
    && (if k == 0 then h[k].change == Creation
        else h[k].change.Transition? && h[k].change.from == StatusAfter(h[k - 1])
             && Allowed(h[k].change.from, h[k].change.to) && h[k].projectId == h[k - 1].projectId)
  }

  ghost predicate Linked(h: seq<Event>) {
    forall k :: 0 <= k < |h| ==> LinkedAt(h, k)
  }

  /** The row a history leads to, event by event. */
  function Replay(h: seq<Event>): Option<Row> {
    if h == [] then None
    else
      var last := h[|h| - 1];
      match (Replay(h[..|h| - 1]), last.change)
      case (None, Creation) => Some(Row(last.projectId, Planned, 1))
      case (Some(row), Transition(from, to)) =>
        if row.status == from && row.projectId == last.projectId then Some(Row(row.projectId, to, row.version + 1))
        else None
      case _ => None
  }

  /** No two events share their id, or their record and version. */
  ghost predicate NoClash(log: seq<Event>) {
    forall i, j :: 0 <= i < j < |log| ==> !Clash(log[i], log[j])
  }

  ghost predicate Consistent(s: Store) {
    && (forall id: string :: Linked(HistoryOf(s.log, id)))
    && (forall id: string :: Replay(HistoryOf(s.log, id)) == if id in s.rows then Some(s.rows[id]) else None)
    && NoClash(s.log)
  }

  /** What a client read was once the row of its package, and it may leave it for where it is going. */
  ghost predicate WasRead(s: Store, c: Snapshot) {
    var h := HistoryOf(s.log, c.packageId);
    && 1 <= c.row.version <= |h|
    && c.row.status == StatusAfter(h[c.row.version - 1])
    && c.row.projectId == h[c.row.version - 1].projectId
    && Allowed(c.row.status, c.to)
  }

  ghost predicate AllWereRead(w: World) {
    forall client :: client in w.pending ==> WasRead(w.store, w.pending[client])
  }

  ghost predicate Sound(w: World) {
    Consistent(w.store) && AllWereRead(w)
  }

  lemma HistorySnoc(log: seq<Event>, e: Event, id: string)
    ensures HistoryOf(log + [e], id)
         == HistoryOf(log, id) + (if e.aggregate.WorkPackage? && e.aggregateId == id then [e] else [])
  {
    FilterAppend(log, [e], Of(id));
  }

  lemma HistoryGrows(log: seq<Event>, longer: seq<Event>, id: string)
    requires log <= longer
    ensures HistoryOf(log, id) <= HistoryOf(longer, id)
  {
    FilterAppend(log, longer[|log|..], Of(id));
    assert longer == log + longer[|log|..];
  }

  lemma {:induction false} ReplayOfLinked(h: seq<Event>)
    requires Linked(h)
    ensures Replay(h)
         == if h == [] then None else Some(Row(h[|h| - 1].projectId, StatusAfter(h[|h| - 1]), |h|))
  {
    if h == [] {
    } else {
      var front := h[..|h| - 1];
      forall k | 0 <= k < |front| ensures LinkedAt(front, k) {
        assert LinkedAt(h, k);
      }
      ReplayOfLinked(front);
      assert LinkedAt(h, |h| - 1);
      if |h| > 1 {
        assert front[|front| - 1] == h[|h| - 2];
      }
    }
  }

  lemma NoClashSnoc(log: seq<Event>, e: Event)
    requires NoClash(log) && !Taken(log, e)
    ensures NoClash(log + [e])
  {
    var longer := log + [e];
    forall i, j | 0 <= i < j < |longer| ensures !Clash(longer[i], longer[j]) {
      if j < |log| {
        assert !Clash(log[i], log[j]);
      } else {
        assert !Clash(log[i], e);
      }
    }
  }

  /** Appending an event that continues the history of its package keeps the tables consistent. */
  lemma AppendKeepsConsistent(s: Store, g: Graph, e: Event, row: Row)
    requires Consistent(s) && !Taken(s.log, e) && e.aggregate.WorkPackage?
    requires Linked(HistoryOf(s.log, e.aggregateId) + [e])
    requires row == Row(e.projectId, StatusAfter(e), e.version)
    ensures Consistent(Store(g, s.rows[e.aggregateId := row], s.log + [e]))
  {
    hide Linked, Replay, HistoryOf, StatusAfter, NoClash, Taken;
    var s' := Store(g, s.rows[e.aggregateId := row], s.log + [e]);
    NoClashSnoc(s.log, e);
    forall id: string ensures Linked(HistoryOf(s'.log, id))
      && Replay(HistoryOf(s'.log, id)) == if id in s'.rows then Some(s'.rows[id]) else None
    {
      HistorySnoc(s.log, e, id);
      if id == e.aggregateId {
        LinkedVersion(HistoryOf(s.log, id), e);
        ReplayOfLinked(HistoryOf(s.log, id) + [e]);
      } else {
        assert HistoryOf(s'.log, id) == HistoryOf(s.log, id);
      }
    }
  }

  /** An event of another kind of record touches no package's history. */
  lemma OtherKeepsConsistent(s: Store, g: Graph, e: Event)
    requires Consistent(s) && !Taken(s.log, e) && e.aggregate.Other?
    ensures Consistent(Store(g, s.rows, s.log + [e]))
  {
    hide Linked, Replay, HistoryOf, NoClash, Taken;
    NoClashSnoc(s.log, e);
    forall id: string ensures HistoryOf(s.log + [e], id) == HistoryOf(s.log, id) {
      HistorySnoc(s.log, e, id);
    }
  }

  lemma LinkedVersion(h: seq<Event>, e: Event)
    requires Linked(h + [e])
    ensures e.version == |h| + 1 && (h + [e])[|h + [e]| - 1] == e
  {
    assert LinkedAt(h + [e], |h|);
  }

  /** What a client read, it may still read in any store with a longer log. */
  lemma ReadsStay(s: Store, s': Store, c: Snapshot)
    requires WasRead(s, c) && s.log <= s'.log
    ensures WasRead(s', c)
  {
    hide HistoryOf;
    HistoryGrows(s.log, s'.log, c.packageId);
  }

  lemma RowOf(s: Store, id: string)
    requires Consistent(s)
    ensures id in s.rows <==> HistoryOf(s.log, id) != []
    ensures id in s.rows ==>
      var h := HistoryOf(s.log, id);
      s.rows[id] == Row(h[|h| - 1].projectId, StatusAfter(h[|h| - 1]), |h|)
  {
    hide Linked, HistoryOf, StatusAfter, Replay;
    ReplayOfLinked(HistoryOf(s.log, id));
  }

  /** An event that is inserted creates its package, or is about another kind of record. */
  predicate Starts(x: Insertion) {
    x.event.aggregate.WorkPackage? ==> x.event.version == 1 && x.event.change == Creation
  }

  lemma InsertIsSound(s: Store, x: Insertion)
    requires Consistent(s) && Starts(x) && Inserted(s, x).Some?
    ensures Consistent(Inserted(s, x).value) && s.log <= Inserted(s, x).value.log
  {
    hide Consistent, Taken, HistoryOf, Added;
    var e, g := x.event, Added(s.graph, x).value;
    if e.aggregate.WorkPackage? {
      RowOf(s, e.aggregateId);
      LinkOneMore([], e);
      AppendKeepsConsistent(s, g, e, Row(e.projectId, Planned, 1));
    } else {
      OtherKeepsConsistent(s, g, e);
    }
  }

  lemma {:induction false} InsertAllIsSound(s: Store, xs: seq<Insertion>)
    requires Consistent(s) && InsertedAll(s, xs).Some? && forall x :: x in xs ==> Starts(x)
    ensures Consistent(InsertedAll(s, xs).value) && s.log <= InsertedAll(s, xs).value.log
  {
    hide Consistent, Inserted, Starts;
    if xs == [] {
    } else {
      InsertAllIsSound(s, xs[..|xs| - 1]);
      InsertIsSound(InsertedAll(s, xs[..|xs| - 1]).value, xs[|xs| - 1]);
    }
  }

  /** Where the insertions of a project come from. */
  lemma {:induction false} PlanOrigin(projectId: string, plans: seq<Plan>, x: Insertion)
    requires x in Flatten(Map(PlanInsertions(projectId), plans))
    ensures Starts(x) && x.content == NoContent && x.event.projectId == projectId
  {
    hide Starts;
    var all := Map(PlanInsertions(projectId), plans);
    assert plans != [];
    assert all[1..] == Map(PlanInsertions(projectId), plans[1..]);
    if x in all[0] {
      OnePlanOrigin(projectId, plans[0], x);
    } else {
      PlanOrigin(projectId, plans[1..], x);
    }
  }

  lemma OnePlanOrigin(projectId: string, plan: Plan, x: Insertion)
    requires x in PlanInsertions(projectId)(plan)
    ensures Starts(x) && x.content == NoContent && x.event.projectId == projectId
  {
  }

  /** The insertions of a project: its own, one for each requirement, and others without content. */
  lemma ProjectOrigin(p: Project, x: Insertion)
    requires x in ProjectInsertions(p)
    ensures Starts(x) && x.event.projectId == p.id
    ensures x.content.ProjectContent? ==> x == FirstInsertion(p)
    ensures x.content.RequirementContent? ==> exists r :: r in p.requirements && x == RequirementOf(p.id)(r)
  {
    hide Flatten, PlanInsertions;
    if x in Map(RequirementOf(p.id), p.requirements) {
      var i :| 0 <= i < |p.requirements| && Map(RequirementOf(p.id), p.requirements)[i] == x;
      assert x == RequirementOf(p.id)(p.requirements[i]);
    } else if x in Flatten(Map(PlanInsertions(p.id), p.plans)) {
      PlanOrigin(p.id, p.plans, x);
    }
  }

  lemma RequirementIsInserted(p: Project, r: Requirement)
    requires r in p.requirements
    ensures RequirementOf(p.id)(r) in ProjectInsertions(p)
  {
    hide Flatten, PlanInsertions, Map, RequirementOf;
    MapMembers(RequirementOf(p.id), p.requirements, r);
  }

  lemma CreateIsSound(s: Store, p: Project)
    requires Consistent(s) && Created(s, p).Some?
    ensures Consistent(Created(s, p).value) && s.log <= Created(s, p).value.log
  {
    hide Consistent, InsertedAll, ProjectInsertions, Starts;
    forall x | x in ProjectInsertions(p) ensures Starts(x) {
      ProjectOrigin(p, x);
    }
    InsertAllIsSound(s, ProjectInsertions(p));
  }

  /** A write that finds the version it read found the very row it read. */
  lemma WriteIsSound(s: Store, c: Snapshot, eventId: string)
    requires Consistent(s) && WasRead(s, c) && Written(s, c, eventId).Some?
    ensures s.rows[c.packageId] == c.row
    ensures Consistent(Written(s, c, eventId).value) && s.log <= Written(s, c, eventId).value.log
  {
    hide Consistent, Taken, HistoryOf, Allowed;
    RowOf(s, c.packageId);
    var h := HistoryOf(s.log, c.packageId);
    var e := TransitionOf(c, eventId);
    HistoryIsLinked(s, c.packageId);
    LinkOneMore(h, e);
    AppendKeepsConsistent(s, s.graph, e, Row(c.row.projectId, c.to, c.row.version + 1));
  }

  lemma LinkOneMore(h: seq<Event>, e: Event)
    requires Linked(h) && LinkedAt(h + [e], |h|)
    ensures Linked(h + [e])
  {
    forall k | 0 <= k < |h| ensures LinkedAt(h + [e], k) {
      assert LinkedAt(h, k);
    }
  }

  lemma HistoryIsLinked(s: Store, id: string)
    requires Consistent(s)
    ensures Linked(HistoryOf(s.log, id))
  {
    hide Linked, HistoryOf;
  }

  /** Pending reads outlive any step that only appends. */
  lemma AllReadsStay(w: World, s': Store)
    requires AllWereRead(w) && w.store.log <= s'.log
    ensures AllWereRead(w.(store := s'))
  {
    hide WasRead;
    forall client | client in w.pending ensures WasRead(s', w.pending[client]) {
      ReadsStay(w.store, s', w.pending[client]);
    }
  }

  lemma StepIsSound(w: World, a: Action)
    requires Sound(w)
    ensures Sound(Step(w, a)) && w.store.log <= Step(w, a).store.log
  {
    hide Consistent, WasRead, Created, Written, ReadFor, Inserted;
    match a {
      case Create(project) =>
        if Created(w.store, project).Some? {
          CreateIsSound(w.store, project);
          AllReadsStay(w, Created(w.store, project).value);
        }
      case Record(id, projectId, kind, recordId, version) =>
        var x := Recorded(id, projectId, kind, recordId, version);
        if Inserted(w.store, x).Some? {
          InsertIsSound(w.store, x);
          AllReadsStay(w, Inserted(w.store, x).value);
        }
      case Read(client, id, to) =>
        if ReadFor(w.store, id, to).Some? {
          ReadIsSound(w.store, id, to);
        }
      case Write(client, eventId) =>
        if client in w.pending && Written(w.store, w.pending[client], eventId).Some? {
          WriteIsSound(w.store, w.pending[client], eventId);
          AllReadsStay(w, Written(w.store, w.pending[client], eventId).value);
        }
    }
  }

  lemma ReadIsSound(s: Store, id: string, to: Status)
    requires Consistent(s) && ReadFor(s, id, to).Some?
    ensures WasRead(s, ReadFor(s, id, to).value)
  {
    hide Consistent, HistoryOf;
    RowOf(s, id);
  }

  /** Under any interleaving, starting from any sound state, the tables stay consistent. */
  lemma {:induction false} EveryRunIsSound(w: World, actions: seq<Action>)
    requires Sound(w)
    ensures Sound(Run(w, actions)) && w.store.log <= Run(w, actions).store.log
    decreases |actions|
  {
    hide Sound, Step;
    if actions == [] {
    } else {
      StepIsSound(w, actions[0]);
      EveryRunIsSound(Step(w, actions[0]), actions[1..]);
    }
  }

  /** Under any interleaving of creators, readers and writers, with events of other records among them:
      every package's events carry contiguous versions from one, start with its creation, stay in its
      project, follow the table from the status the event before left, and replay to exactly the stored
      row; packages without events have no row; no two events share an id, or record and version. */
  lemma EveryHistoryReplaysToItsRow(actions: seq<Action>, id: string)
    ensures var s := Run(EMPTY, actions).store;
      var h := HistoryOf(s.log, id);
      && Linked(h)
      && Replay(h) == (if id in s.rows then Some(s.rows[id]) else None)
      && (id in s.rows <==> h != [])
      && (id in s.rows ==> s.rows[id].version == |h|)
      && NoClash(s.log)
  {
    hide Linked, Replay, HistoryOf, NoClash;
    EmptyIsSound();
    EveryRunIsSound(EMPTY, actions);
    RowOf(Run(EMPTY, actions).store, id);
  }

  lemma EmptyIsSound()
    ensures Sound(EMPTY)
  {
  }

  // ---------------------------------------------------------------- the road to closed

  /** The statuses a history passed through. */
  function Path(h: seq<Event>): seq<Status> {
    Map((e: Event) => StatusAfter(e), h)
  }

  /** The status before a step is one the table lets it follow. */
  lemma CameFrom(h: seq<Event>, k: nat)
    requires Linked(h) && 0 < k < |h|
    ensures Path(h)[k] in Next(Path(h)[k - 1])
  {
    hide Allowed, Next;
    assert LinkedAt(h, k);
    AllowedIsNext(h[k].change.from, h[k].change.to);
  }

  lemma AllowedIsNext(from: Status, to: Status)
    ensures Allowed(from, to) <==> to in Next(from)
  {
  }

  ghost predicate EndsWith(path: seq<Status>, tail: seq<Status>) {
    |tail| <= |path| && path[|path| - |tail|..] == tail
  }

  lemma EndsLonger(path: seq<Status>, s: Status, tail: seq<Status>)
    requires EndsWith(path, tail) && |tail| < |path| && path[|path| - |tail| - 1] == s
    ensures EndsWith(path, [s] + tail)
  {
    var k := |path| - |tail|;
    assert path[k - 1..] == [path[k - 1]] + path[k..];
  }

  /** One step further back: the status before the tail is one the table lets the tail follow. */
  lemma OneBack(h: seq<Event>, tail: seq<Status>) returns (s: Status, longer: seq<Status>)
    requires Linked(h) && h != [] && tail != [] && EndsWith(Path(h), tail) && tail[0] != Planned
    ensures tail[0] in Next(s) && longer == [s] + tail && EndsWith(Path(h), longer)
  {
    hide Linked, Path, Next;
    PathFacts(h);
    var k := |h| - |tail|;
    assert Path(h)[k] == Path(h)[k..][0] == tail[0];
    s := Path(h)[k - 1];
    longer := [s] + tail;
    CameFrom(h, k);
    EndsLonger(Path(h), s, tail);
  }

  /** What the table lets a status on the road to closed follow. */
  lemma Before(s: Status, t: Status)
    requires t in Next(s)
    ensures t == Closed ==> s == Accepted
    ensures t == Accepted ==> s == Reviewing
    ensures t == Reviewing ==> s == Verifying
    ensures t == Verifying ==> s == EvidencePending || s == Running
    ensures t == EvidencePending ==> s == Running
    ensures t == Running ==> s == Leased
    ensures t == Leased ==> s == Eligible
  {
  }

  lemma BackToVerifying(h: seq<Event>)
    requires Linked(h) && h != [] && StatusAfter(h[|h| - 1]) == Closed
    ensures EndsWith(Path(h), [Verifying, Reviewing, Accepted, Closed])
  {
    hide Linked, Path, EndsWith, Next, StatusAfter;
    ClosedEnds(h);
    var s1, toAccepted := OneBack(h, [Closed]);
    Before(s1, Closed);
    var s2, toReviewing := OneBack(h, toAccepted);
    Before(s2, Accepted);
    var s3, toVerifying := OneBack(h, toReviewing);
    Before(s3, Reviewing);
    assert toVerifying == [Verifying, Reviewing, Accepted, Closed];
  }

  lemma BackToEligible(h: seq<Event>, tail: seq<Status>)
    requires Linked(h) && h != [] && tail != [] && tail[0] == Running && EndsWith(Path(h), tail)
    ensures EndsWith(Path(h), [Eligible, Leased] + tail)
  {
    hide Linked, Path, EndsWith, Next;
    var s1, toLeased := OneBack(h, tail);
    Before(s1, Running);
    var s2, toEligible := OneBack(h, toLeased);
    Before(s2, Leased);
    assert toEligible == [Eligible, Leased] + tail;
  }

  /** How far back a closed package's path is forced. */
  lemma ClosedPath(h: seq<Event>)
    requires Linked(h) && h != [] && StatusAfter(h[|h| - 1]) == Closed
    ensures EndsWith(Path(h), [Eligible, Leased, Running, Verifying, Reviewing, Accepted, Closed])
         || EndsWith(Path(h), [Eligible, Leased, Running, EvidencePending, Verifying, Reviewing, Accepted, Closed])
  {
    hide Linked, Path, EndsWith, Next, StatusAfter;
    BackToVerifying(h);
    var s, longer := OneBack(h, [Verifying, Reviewing, Accepted, Closed]);
    Before(s, Verifying);
    if s == EvidencePending {
      var s', toRunning := OneBack(h, longer);
      Before(s', EvidencePending);
      BackToEligible(h, toRunning);
      assert [Eligible, Leased] + toRunning
          == [Eligible, Leased, Running, EvidencePending, Verifying, Reviewing, Accepted, Closed];
    } else {
      BackToEligible(h, longer);
      assert [Eligible, Leased] + longer == [Eligible, Leased, Running, Verifying, Reviewing, Accepted, Closed];
    }
  }

  lemma ClosedEnds(h: seq<Event>)
    requires Linked(h) && h != [] && StatusAfter(h[|h| - 1]) == Closed
    ensures EndsWith(Path(h), [Closed])
  {
    hide Linked, Path;
    PathFacts(h);
    assert Path(h)[|h| - 1..] == [Closed];
  }

  lemma PathFacts(h: seq<Event>)
    requires Linked(h) && h != []
    ensures |Path(h)| == |h| && Path(h)[0] == Planned && Path(h)[|h| - 1] == StatusAfter(h[|h| - 1])
  {
    assert LinkedAt(h, 0);
  }

  /** A package that is closed was leased, run, verified, reviewed and accepted right before, in that
      order and with nothing between but an optional wait for evidence; under any interleaving. */
  lemma ClosedWasReviewed(actions: seq<Action>, id: string)
    ensures var s := Run(EMPTY, actions).store;
      id in s.rows && s.rows[id].status == Closed ==>
        var path := Path(HistoryOf(s.log, id));
        || EndsWith(path, [Eligible, Leased, Running, Verifying, Reviewing, Accepted, Closed])
        || EndsWith(path, [Eligible, Leased, Running, EvidencePending, Verifying, Reviewing, Accepted, Closed])
  {
    hide Linked, HistoryOf, Path, EndsWith;
    var s := Run(EMPTY, actions).store;
    EmptyIsSound();
    EveryRunIsSound(EMPTY, actions);
    RowOf(s, id);
    if id in s.rows && s.rows[id].status == Closed {
      ClosedPath(HistoryOf(s.log, id));
    }
  }

  // ---------------------------------------------------------------- no lost update

  ghost predicate Avoids(actions: seq<Action>, client: nat) {
    forall a :: a in actions ==> (a.Read? ==> a.client != client) && (a.Write? ==> a.writer != client)
  }

  lemma StepKeepsPending(w: World, a: Action, client: nat)
    requires Avoids([a], client) && client in w.pending
    ensures client in Step(w, a).pending && Step(w, a).pending[client] == w.pending[client]
  {
    hide Created, Inserted, ReadFor, Written;
    assert a in [a];
  }

  lemma {:induction false} RunKeepsPending(w: World, actions: seq<Action>, client: nat)
    requires Avoids(actions, client) && client in w.pending
    ensures client in Run(w, actions).pending && Run(w, actions).pending[client] == w.pending[client]
    decreases |actions|
  {
    hide Step;
    if actions == [] {
    } else {
      assert Avoids([actions[0]], client) && Avoids(actions[1..], client);
      StepKeepsPending(w, actions[0], client);
      RunKeepsPending(Step(w, actions[0]), actions[1..], client);
    }
  }

  /** The next version of a package is not in the log yet, so its next event clashes only by id. */
  lemma NextEventIsFresh(s: Store, e: Event)
    requires Consistent(s) && e.aggregate.WorkPackage? && e.version == |HistoryOf(s.log, e.aggregateId)| + 1
    ensures Taken(s.log, e) <==> IdUsed(s.log, e.id)
  {
    hide Linked;
    var h := HistoryOf(s.log, e.aggregateId);
    HistoryIsLinked(s, e.aggregateId);
    forall k | 0 <= k < |s.log| ensures Clash(s.log[k], e) <==> s.log[k].id == e.id {
      if s.log[k].aggregate.WorkPackage? && s.log[k].aggregateId == e.aggregateId {
        assert s.log[k] in h;
        OlderVersion(h, s.log[k]);
      }
    }
  }

  lemma OlderVersion(h: seq<Event>, e: Event)
    requires Linked(h) && e in h
    ensures e.version <= |h|
  {
    var k :| 0 <= k < |h| && h[k] == e;
    assert LinkedAt(h, k);
  }

  /** A write succeeds exactly when nothing was logged for its package since its client's read and no event
      of any record has its event id; then it moves the row the client read, and otherwise it changes
      nothing. */
  lemma WriteSucceedsIffUndisturbed(
    before: seq<Action>, client: nat, id: string, to: Status, between: seq<Action>, eventId: string)
    requires ReadFor(Run(EMPTY, before).store, id, to).Some? && Avoids(between, client)
    ensures var read := Step(Run(EMPTY, before), Read(client, id, to));
      var w := Run(read, between);
      var w' := Step(w, Write(client, eventId));
      var undisturbed := HistoryOf(w.store.log, id) == HistoryOf(read.store.log, id) && !IdUsed(w.store.log, eventId);
      if undisturbed then
        && id in w.store.rows && id in read.store.rows && w.store.rows[id] == read.store.rows[id]
        && var row := read.store.rows[id];
           w'.store == Store(w.store.graph, w.store.rows[id := Row(row.projectId, to, row.version + 1)],
                             w.store.log + [Event(eventId, row.projectId, WorkPackage, id, row.version + 1,
                                                  Transition(row.status, to))])
      else w'.store == w.store
  {
    hide Run, HistoryOf, IdUsed, Taken, Consistent, StatusAfter, Allowed, WasRead;
    var start := Run(EMPTY, before);
    EmptyIsSound();
    EveryRunIsSound(EMPTY, before);
    var read := Step(start, Read(client, id, to));
    StepIsSound(start, Read(client, id, to));
    EveryRunIsSound(read, between);
    RunKeepsPending(read, between, client);
    var w := Run(read, between);
    HistoryGrows(read.store.log, w.store.log, id);
    RowOf(read.store, id);
    RowOf(w.store, id);
    if HistoryOf(w.store.log, id) == HistoryOf(read.store.log, id) {
      NextEventIsFresh(w.store, TransitionOf(w.pending[client], eventId));
    }
  }

  // ---------------------------------------------------------------- the domain's own transition

  /** However stale the client's read, a write that succeeds does to the row of that moment what the
      domain's own transition does to it; exactly when the domain leaves all three ids as they are. */
  lemma WriteIsTheDomainTransition(w: World, client: nat, eventId: string, trim: string -> string)
    requires Sound(w) && client in w.pending && Written(w.store, w.pending[client], eventId).Some?
    ensures var id := w.pending[client].packageId;
      var s' := Step(w, Write(client, eventId)).store;
      id in w.store.rows && id in s'.rows && |s'.log| > 0
      && var projectId := w.store.rows[id].projectId;
         DomainTransition(id, w.store.rows[id], w.pending[client].to, eventId, trim)
           == Some((s'.rows[id], s'.log[|s'.log| - 1]))
         <==> trim(eventId) == eventId != "" && trim(projectId) == projectId != "" && trim(id) == id != ""
  {
    hide Consistent, Taken, WasRead, DomainTransition, Allowed;
    var c := w.pending[client];
    ReadIsAllowed(w, client);
    WriteIsSound(w.store, c, eventId);
    DomainDoesAlike(c, eventId, trim);
  }

  lemma ReadIsAllowed(w: World, client: nat)
    requires Sound(w) && client in w.pending
    ensures WasRead(w.store, w.pending[client])
    ensures Allowed(w.pending[client].row.status, w.pending[client].to)
  {
    hide Consistent, HistoryOf, Allowed;
  }

  /** The domain's transition of the row that was read. */
  lemma DomainDoesAlike(c: Snapshot, eventId: string, trim: string -> string)
    requires Allowed(c.row.status, c.to)
    ensures DomainTransition(c.packageId, c.row, c.to, eventId, trim)
         == Some((c.row.(status := c.to, version := c.row.version + 1), TransitionOf(c, eventId)))
       <==> trim(eventId) == eventId != "" && trim(c.row.projectId) == c.row.projectId != ""
            && trim(c.packageId) == c.packageId != ""
  {
    hide Allowed;
  }

  /** A project whose id has a blank at either end, with one planned package. */
  const PADDED_PROJECT := Project(" P1 ", "Project one", [], [Plan("PLAN-1", ["WP-1"])])

  const PADDED_EVENTS := [
    Event("EVT- P1 -CREATED", " P1 ", Other("project"), " P1 ", 1, Creation),
    Event("EVT-PLAN-1-CREATED", " P1 ", Other("plan"), "PLAN-1", 1, Creation),
    Event("EVT-WP-1-CREATED", " P1 ", WorkPackage, "WP-1", 1, Creation)]

  const PADDED_STORE := Store(
    Graph(map[" P1 " := "Project one"], map[], map[]), map["WP-1" := Row(" P1 ", Planned, 1)], PADDED_EVENTS)

  lemma OnePackage(projectId: string, plan: Plan, id: string)
    requires plan.packageIds == [id]
    ensures PlanInsertions(projectId)(plan)
         == [Insertion(CreationOf(projectId, Other("plan"), plan.id), NoContent)] + [PackageOf(projectId)(id)]
  {
    hide Map, CreationOf, PackageOf;
    assert Map(PackageOf(projectId), [id]) == [PackageOf(projectId)(id)];
  }

  lemma FlattenOne(xs: seq<Insertion>)
    ensures Flatten([xs]) == xs
  {
  }

  /** What a project of one package writes. */
  lemma OnePackageProject(p: Project, plan: Plan, id: string)
    requires p.requirements == [] && p.plans == [plan] && plan.packageIds == [id]
    ensures ProjectInsertions(p)
         == [FirstInsertion(p), Insertion(CreationOf(p.id, Other("plan"), plan.id), NoContent), PackageOf(p.id)(id)]
  {
    hide Map, Flatten, CreationOf, FirstInsertion, PackageOf, PlanInsertions, RequirementOf;
    OnePackage(p.id, plan, id);
    assert Map(PlanInsertions(p.id), [plan]) == [PlanInsertions(p.id)(plan)];
    FlattenOne(PlanInsertions(p.id)(plan));
    assert Map(RequirementOf(p.id), p.requirements) == [];
  }

  lemma CreationHas(projectId: string, aggregate: Aggregate, id: string, eventId: string)
    requires "EVT-" + id + "-CREATED" == eventId
    ensures CreationOf(projectId, aggregate, id) == Event(eventId, projectId, aggregate, id, 1, Creation)
  {
  }

  lemma CreationIds()
    ensures "EVT-" + " P1 " + "-CREATED" == "EVT- P1 -CREATED"
    ensures "EVT-" + "PLAN-1" + "-CREATED" == "EVT-PLAN-1-CREATED"
    ensures "EVT-" + "WP-1" + "-CREATED" == "EVT-WP-1-CREATED"
  {
  }

  lemma PaddedInsertions()
    ensures ProjectInsertions(PADDED_PROJECT)
         == [Insertion(PADDED_EVENTS[0], ProjectContent("Project one")), Insertion(PADDED_EVENTS[1], NoContent),
             Insertion(PADDED_EVENTS[2], NoContent)]
  {
    hide ProjectInsertions, CreationOf;
    OnePackageProject(PADDED_PROJECT, Plan("PLAN-1", ["WP-1"]), "WP-1");
    CreationIds();
    CreationHas(" P1 ", Other("project"), " P1 ", "EVT- P1 -CREATED");
    CreationHas(" P1 ", Other("plan"), "PLAN-1", "EVT-PLAN-1-CREATED");
    CreationHas(" P1 ", WorkPackage, "WP-1", "EVT-WP-1-CREATED");
  }

  lemma PaddedProjectCreated()
    ensures Created(EMPTY.store, PADDED_PROJECT) == Some(PADDED_STORE)
  {
    hide InsertedAll, ProjectInsertions;
    PaddedInsertions();
    var xs := ProjectInsertions(PADDED_PROJECT);
    var g := PADDED_STORE.graph;
    DifferentIds();
    var s1 := Store(g, map[], [PADDED_EVENTS[0]]);
    var e := PADDED_EVENTS;
    assert [] + [e[0]] == [e[0]] && [e[0]] + [e[1]] == [e[0], e[1]] && [e[0], e[1]] + [e[2]] == e;
    assert Inserted(EMPTY.store, xs[0]) == Some(s1);
    var s2 := Store(g, map[], [PADDED_EVENTS[0], PADDED_EVENTS[1]]);
    assert Inserted(s1, xs[1]) == Some(s2);
    assert Inserted(s2, xs[2]) == Some(PADDED_STORE);
    InsertedHead(EMPTY.store, xs[0], [xs[1], xs[2]]);
    InsertedHead(s1, xs[1], [xs[2]]);
    InsertedHead(s2, xs[2], []);
    NothingIsInserted(PADDED_STORE);
    assert [xs[0]] + [xs[1], xs[2]] == xs && [xs[1]] + [xs[2]] == [xs[1], xs[2]] && [xs[2]] + [] == [xs[2]];
  }

  lemma NothingIsInserted(s: Store)
    ensures InsertedAll(s, []) == Some(s)
  {
  }

  lemma DifferentIds()
    ensures "EVT- P1 -CREATED" != "EVT-PLAN-1-CREATED" && "EVT- P1 -CREATED" != "EVT-WP-1-CREATED"
    ensures "EVT-PLAN-1-CREATED" != "EVT-WP-1-CREATED"
    ensures forall k :: 0 <= k < |PADDED_EVENTS| ==> PADDED_EVENTS[k].id != "EVT-1"
  {
    assert "EVT- P1 -CREATED"[4] != "EVT-WP-1-CREATED"[4];
    assert |"EVT- P1 -CREATED"| == 16 && |"EVT-PLAN-1-CREATED"| == 18 && |"EVT-WP-1-CREATED"| == 16 && |"EVT-1"| == 5;
  }

  lemma OneStep(w: World, a: Action)
    ensures Run(w, [a]) == Step(w, a)
  {
    hide Step;
    assert [a][1..] == [];
  }

  /** Creating it returns normally and the database moves its package; the domain's transition of the same row
      logs another project id than the database does. */
  lemma PaddedProjectDividesThem(trim: string -> string)
    requires trim(" P1 ") == "P1" && trim("Project one") == "Project one"
    requires trim("WP-1") == "WP-1" && trim("EVT-1") == "EVT-1"
    ensures CreationFor(EMPTY.store, PADDED_PROJECT, trim) == Returned
    ensures var w := Run(EMPTY, [Create(PADDED_PROJECT), Read(0, "WP-1", Eligible)]);
      && Sound(w) && 0 in w.pending && Written(w.store, w.pending[0], "EVT-1").Some?
      && "WP-1" in w.store.rows
      && var s', moved := Written(w.store, w.pending[0], "EVT-1").value,
                          DomainTransition("WP-1", w.store.rows["WP-1"], Eligible, "EVT-1", trim);
         && s'.log != [] && s'.log[|s'.log| - 1].projectId == " P1 "
         && moved.Some? && moved.value.1.projectId == "P1"
  {
    hide Sound, Created;
    var actions := [Create(PADDED_PROJECT), Read(0, "WP-1", Eligible)];
    EmptyIsSound();
    EveryRunIsSound(EMPTY, actions);
    PaddedProjectCreated();
    var w := World(PADDED_STORE, map[]);
    assert Step(EMPTY, actions[0]) == w;
    assert actions[1..] == [actions[1]];
    OneStep(w, actions[1]);
    DifferentIds();
  }

  // ---------------------------------------------------------------- final statuses

  predicate Final(s: Status) {
    s == Closed || s == Cancelled || s == Superseded
  }

  /** Nothing moves a package out of a final status, however many writers were already under way. */
  lemma {:induction false} FinalIsForever(w: World, actions: seq<Action>, id: string)
    requires Sound(w) && id in w.store.rows && Final(w.store.rows[id].status)
    ensures var s := Run(w, actions).store; id in s.rows && s.rows[id] == w.store.rows[id]
    ensures HistoryOf(Run(w, actions).store.log, id) == HistoryOf(w.store.log, id)
    decreases |actions|
  {
    hide Sound, Step, HistoryOf;
    if actions == [] {
    } else {
      FinalStep(w, actions[0], id);
      StepIsSound(w, actions[0]);
      FinalIsForever(Step(w, actions[0]), actions[1..], id);
    }
  }

  lemma {:induction false} InsertsStartFresh(s: Store, xs: seq<Insertion>, id: string)
    requires InsertedAll(s, xs).Some? && id in s.rows
    ensures var s' := InsertedAll(s, xs).value; id in s'.rows && s'.rows[id] == s.rows[id]
    ensures HistoryOf(InsertedAll(s, xs).value.log, id) == HistoryOf(s.log, id)
  {
    hide HistoryOf, Taken, Added;
    if xs == [] {
    } else {
      var x := xs[|xs| - 1];
      InsertsStartFresh(s, xs[..|xs| - 1], id);
      HistorySnoc(InsertedAll(s, xs[..|xs| - 1]).value.log, x.event, id);
    }
  }

  lemma FinalStep(w: World, a: Action, id: string)
    requires Sound(w) && id in w.store.rows && Final(w.store.rows[id].status)
    ensures var s := Step(w, a).store; id in s.rows && s.rows[id] == w.store.rows[id]
    ensures HistoryOf(Step(w, a).store.log, id) == HistoryOf(w.store.log, id)
  {
    hide Consistent, HistoryOf, Taken, Added, InsertedAll, ProjectInsertions;
    match a {
      case Create(project) =>
        if Created(w.store, project).Some? {
          InsertsStartFresh(w.store, ProjectInsertions(project), id);
        }
      case Record(eventId, projectId, kind, recordId, version) =>
        HistorySnoc(w.store.log, Event(eventId, projectId, Other(kind), recordId, version, Fact), id);
      case Read(_, _, _) =>
      case Write(client, eventId) =>
        if client in w.pending {
          var c := w.pending[client];
          if Written(w.store, c, eventId).Some? {
            WriteIsSound(w.store, c, eventId);
            assert Allowed(c.row.status, c.to);
            HistorySnoc(w.store.log, TransitionOf(c, eventId), id);
          }
        }
    }
  }
}
