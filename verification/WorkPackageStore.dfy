/** Work packages in the database: a row with its project, a status and a version, and one append-only
    log of lifecycle events that all kinds of records share. Clients read a row, check the transition, and
    later write conditionally on the version they read; between the two, anything may happen. */
module WorkPackageStore {
  import opened Collections

  datatype Status =
    | Proposed | Planned | Eligible | Leased | Running | EvidencePending | Verifying | Reviewing
    | RepairRequired | ReplanRequired | DecisionRequired | Blocked | Accepted | Closed | Cancelled | Superseded

  /** The transition table. */
  function Next(s: Status): set<Status> {
    match s
    case Proposed => {Planned, Cancelled, Superseded}
    case Planned => {Eligible, Blocked, Cancelled, Superseded}
    case Eligible => {Leased, Blocked, Cancelled, Superseded}
    case Leased => {Running, Eligible, Blocked, Cancelled}
    case Running => {EvidencePending, Verifying, RepairRequired, ReplanRequired, DecisionRequired, Blocked}
    case EvidencePending => {Verifying, RepairRequired, ReplanRequired, Blocked}
    case Verifying => {Reviewing, RepairRequired, ReplanRequired, DecisionRequired, Blocked}
    case Reviewing => {Accepted, RepairRequired, ReplanRequired, DecisionRequired, Blocked}
    case RepairRequired => {Eligible, Cancelled, Superseded}
    case ReplanRequired => {Planned, Cancelled, Superseded}
    case DecisionRequired => {Planned, Eligible, Cancelled, Superseded}
    case Blocked => {Planned, Eligible, Cancelled, Superseded}
    case Accepted => {Closed}
    case Closed => {}
    case Cancelled => {}
    case Superseded => {}
  }

  predicate Allowed(from: Status, to: Status) {
    to in Next(from)
  }

  datatype Row = Row(projectId: string, status: Status, version: nat)

  /** What an event is about: a work package, or a record of another kind. */
  datatype Aggregate = WorkPackage | Other(kind: string)

  datatype Change = Creation | Transition(from: Status, to: Status) | Fact

  datatype Event = Event(
    id: string, projectId: string, aggregate: Aggregate, aggregateId: string, version: nat, change: Change)

  /** The tables a project is read back from: names of projects, projects of requirements, and requirements
      of acceptance criteria, each by its unique id. */
  datatype Graph = Graph(
    projects: map<string, string>, requirements: map<string, string>, criteria: map<string, string>)

  /** All tables. Package ids are unique; so are event ids, and no two events share record and version. */
  datatype Store = Store(graph: Graph, rows: map<string, Row>, log: seq<Event>)

  predicate Clash(a: Event, b: Event) {
    a.id == b.id || (a.aggregate == b.aggregate && a.aggregateId == b.aggregateId && a.version == b.version)
  }

  predicate Taken(log: seq<Event>, e: Event) {
    exists k :: 0 <= k < |log| && Clash(log[k], e)
  }

  predicate IdUsed(log: seq<Event>, id: string) {
    exists k :: 0 <= k < |log| && log[k].id == id
  }

  // ---------------------------------------------------------------- creating a project

  datatype Requirement = Requirement(id: string, criteria: seq<string>)

  datatype Plan = Plan(id: string, packageIds: seq<string>)

  datatype Project = Project(id: string, name: string, requirements: seq<Requirement>, plans: seq<Plan>)

  /** What is written beside an event. A package's row follows from its event. */
  datatype Content = ProjectContent(name: string) | RequirementContent(criteria: seq<string>) | NoContent

  datatype Insertion = Insertion(event: Event, content: Content)

  function CreationOf(projectId: string, aggregate: Aggregate, id: string): Event {
    Event("EVT-" + id + "-CREATED", projectId, aggregate, id, 1, Creation)
  }

  function RequirementOf(projectId: string): Requirement -> Insertion {
    (r: Requirement) => Insertion(CreationOf(projectId, Other("requirement"), r.id), RequirementContent(r.criteria))
  }

  function PackageOf(projectId: string): string -> Insertion {
    (id: string) => Insertion(CreationOf(projectId, WorkPackage, id), NoContent)
  }

  function PlanInsertions(projectId: string): Plan -> seq<Insertion> {
    (plan: Plan) =>
      [Insertion(CreationOf(projectId, Other("plan"), plan.id), NoContent)] + Map(PackageOf(projectId), plan.packageIds)
  }

  function FirstInsertion(p: Project): Insertion {
    Insertion(CreationOf(p.id, Other("project"), p.id), ProjectContent(p.name))
  }

  /** What creating a project writes, in order. */
  function ProjectInsertions(p: Project): seq<Insertion> {
    [FirstInsertion(p)] + Map(RequirementOf(p.id), p.requirements) + Flatten(Map(PlanInsertions(p.id), p.plans))
  }

  /** The rows of projects, requirements and criteria that an insertion adds; none of their ids may be there. */
  function Added(g: Graph, x: Insertion): Option<Graph> {
    var id := x.event.aggregateId;
    match x.content
    case NoContent => Some(g)
    case ProjectContent(name) => if id in g.projects then None else Some(g.(projects := g.projects[id := name]))
    case RequirementContent(criteria) =>
      if id in g.requirements || !NoDuplicates(criteria) || exists c :: c in criteria && c in g.criteria then None
      else
        Some(g.(requirements := g.requirements[id := x.event.projectId],
                criteria := g.criteria + map c | c in criteria :: id))
  }

  /** One event, with the rows that belong to it. */
  function Inserted(s: Store, x: Insertion): Option<Store> {
    var e := x.event;
    match Added(s.graph, x)
    case None => None
    case Some(g) =>
      if Taken(s.log, e) || (e.aggregate.WorkPackage? && e.aggregateId in s.rows) then None
      else
        var rows := if e.aggregate.WorkPackage? then s.rows[e.aggregateId := Row(e.projectId, Planned, 1)] else s.rows;
        Some(Store(g, rows, s.log + [e]))
  }

  /** All of the insertions in one transaction: a repeated key rolls everything back. */
  function InsertedAll(s: Store, xs: seq<Insertion>): Option<Store> {
    if xs == [] then Some(s)
    else
      match InsertedAll(s, xs[..|xs| - 1])
      case None => None
      case Some(s') => Inserted(s', xs[|xs| - 1])
  }

  function Created(s: Store, p: Project): Option<Store> {
    InsertedAll(s, ProjectInsertions(p))
  }

  /** Reading a project validates it: id and name are not blank, and every requirement has a criterion. The
      rows are read through their parents, so that none can belong to another project. */
  predicate ReadsBack(g: Graph, id: string, trim: string -> string) {
    && id in g.projects && trim(id) != "" && trim(g.projects[id]) != ""
    && forall r :: r in g.requirements && g.requirements[r] == id ==> HasCriterion(g, r)
  }

  predicate HasCriterion(g: Graph, requirement: string) {
    exists c :: c in g.criteria && g.criteria[c] == requirement
  }

  /** How creating ends for the caller: refused with nothing written, or written and then returned or, when
      what was written is not valid, thrown. */
  datatype CreateOutcome = Refused | Thrown | Returned

  function CreationFor(s: Store, p: Project, trim: string -> string): CreateOutcome {
    match Created(s, p)
    case None => Refused
    case Some(s') => if ReadsBack(s'.graph, p.id, trim) then Returned else Thrown
  }

  // ---------------------------------------------------------------- moving a package

  /** What a client holds between its read and its write. */
  datatype Snapshot = Snapshot(packageId: string, row: Row, to: Status)

  /** Reading the row and checking the transition it allows. */
  function ReadFor(s: Store, packageId: string, to: Status): Option<Snapshot> {
    if packageId !in s.rows || !Allowed(s.rows[packageId].status, to) then None
    else Some(Snapshot(packageId, s.rows[packageId], to))
  }

  function TransitionOf(c: Snapshot, eventId: string): Event {
    Event(eventId, c.row.projectId, WorkPackage, c.packageId, c.row.version + 1, Transition(c.row.status, c.to))
  }

  /** Writing where the version is still the one read, and logging the transition; no row updated, or
      a repeated key in the log, rolls the transaction back. */
  function Written(s: Store, c: Snapshot, eventId: string): Option<Store> {
    if c.packageId !in s.rows || s.rows[c.packageId].version != c.row.version || Taken(s.log, TransitionOf(c, eventId))
    then None
    else
      Some(Store(s.graph, s.rows[c.packageId := s.rows[c.packageId].(status := c.to, version := c.row.version + 1)],
                 s.log + [TransitionOf(c, eventId)]))
  }

  /** The transition as the domain computes it for a package in hand: new row and event, with ids trimmed
      and refused when nothing is left. `trim` removes surrounding white space. */
  function DomainTransition(packageId: string, row: Row, to: Status, eventId: string, trim: string -> string):
    Option<(Row, Event)>
  {
    if !Allowed(row.status, to) || trim(eventId) == "" || trim(row.projectId) == "" || trim(packageId) == "" then None
    else
      Some((row.(status := to, version := row.version + 1),
            Event(trim(eventId), trim(row.projectId), WorkPackage, trim(packageId), row.version + 1,
                  Transition(row.status, to))))
  }

  // ---------------------------------------------------------------- interleavings

  /** Clients that have read and not yet written. */
  datatype World = World(store: Store, pending: map<nat, Snapshot>)

  /** `Record` logs an event of a record of another kind: runs, gates, proposals, decisions. */
  datatype Action =
    | Create(project: Project)
    | Record(id: string, projectId: string, kind: string, recordId: string, version: nat)
    | Read(client: nat, target: string, to: Status)
    | Write(writer: nat, eventId: string)

  function Recorded(id: string, projectId: string, kind: string, recordId: string, version: nat): Insertion {
    Insertion(Event(id, projectId, Other(kind), recordId, version, Fact), NoContent)
  }

  function Step(w: World, a: Action): World {
    match a
    case Create(project) =>
      var s := Created(w.store, project);
      if s.Some? then w.(store := s.value) else w
    case Record(id, projectId, kind, recordId, version) =>
      var s := Inserted(w.store, Recorded(id, projectId, kind, recordId, version));
      if s.Some? then w.(store := s.value) else w
    case Read(client, id, to) =>
      var c := ReadFor(w.store, id, to);
      if c.Some? then w.(pending := w.pending[client := c.value]) else w.(pending := w.pending - {client})
    case Write(client, eventId) =>
      if client !in w.pending then w
      else
        var s := Written(w.store, w.pending[client], eventId);
        World(if s.Some? then s.value else w.store, w.pending - {client})
  }

  function Run(w: World, actions: seq<Action>): World
    decreases |actions|
  {
    if actions == [] then w else Run(Step(w, actions[0]), actions[1..])
  }

  const EMPTY := World(Store(Graph(map[], map[], map[]), map[], []), map[])

  // ---------------------------------------------------------------- one insertion after the other

  lemma InsertedSnoc(s: Store, xs: seq<Insertion>, x: Insertion)
    ensures InsertedAll(s, xs + [x]) ==
      match InsertedAll(s, xs)
      case None => None
      case Some(s') => Inserted(s', x)
  {
    assert (xs + [x])[..|xs|] == xs;
  }

  lemma {:induction false} InsertedAppend(s: Store, xs: seq<Insertion>, more: seq<Insertion>)
    ensures InsertedAll(s, xs + more) ==
      match InsertedAll(s, xs)
      case None => None
      case Some(s') => InsertedAll(s', more)
  {
    hide Inserted;
    if more == [] {
      assert xs + more == xs;
    } else {
      var n := |more| - 1;
      InsertedAppend(s, xs, more[..n]);
      InsertedSnoc(s, xs + more[..n], more[n]);
      assert xs + more == xs + more[..n] + [more[n]];
    }
  }

  lemma MapUpTo<T>(f: T -> Insertion, ids: seq<T>, s: Store, i: nat)
    requires i < |ids|
    ensures InsertedAll(s, Map(f, ids[..i + 1])) ==
      match InsertedAll(s, Map(f, ids[..i]))
      case None => None
      case Some(s') => Inserted(s', f(ids[i]))
    ensures InsertedAll(s, Map(f, ids[..i + 1])).None? ==> InsertedAll(s, Map(f, ids)).None?
  {
    hide Inserted;
    MapStep(f, ids, i);
    InsertedSnoc(s, Map(f, ids[..i]), f(ids[i]));
    assert ids == ids[..i + 1] + ids[i + 1..];
    MapAppend(f, ids[..i + 1], ids[i + 1..]);
    InsertedAppend(s, Map(f, ids[..i + 1]), Map(f, ids[i + 1..]));
  }

  lemma PlansUpTo(p: Project, s: Store, i: nat)
    requires i < |p.plans|
    ensures InsertedAll(s, Flatten(Map(PlanInsertions(p.id), p.plans[..i + 1]))) ==
      match InsertedAll(s, Flatten(Map(PlanInsertions(p.id), p.plans[..i])))
      case None => None
      case Some(s') => InsertedAll(s', PlanInsertions(p.id)(p.plans[i]))
    ensures InsertedAll(s, Flatten(Map(PlanInsertions(p.id), p.plans[..i + 1]))).None?
      ==> InsertedAll(s, Flatten(Map(PlanInsertions(p.id), p.plans))).None?
  {
    hide InsertedAll, PlanInsertions;
    var f := PlanInsertions(p.id);
    MapStep(f, p.plans, i);
    FlattenAppend(Map(f, p.plans[..i]), [f(p.plans[i])]);
    assert Flatten([f(p.plans[i])]) == f(p.plans[i]);
    InsertedAppend(s, Flatten(Map(f, p.plans[..i])), f(p.plans[i]));
    assert p.plans == p.plans[..i + 1] + p.plans[i + 1..];
    MapAppend(f, p.plans[..i + 1], p.plans[i + 1..]);
    FlattenAppend(Map(f, p.plans[..i + 1]), Map(f, p.plans[i + 1..]));
    InsertedAppend(s, Flatten(Map(f, p.plans[..i + 1])), Flatten(Map(f, p.plans[i + 1..])));
  }

  /** A first insertion and the rest. */
  lemma InsertedHead(s: Store, x: Insertion, rest: seq<Insertion>)
    ensures InsertedAll(s, [x] + rest) ==
      match Inserted(s, x)
      case None => None
      case Some(s') => InsertedAll(s', rest)
  {
    hide Inserted;
    InsertedAppend(s, [x], rest);
    assert [x] == [] + [x];
    InsertedSnoc(s, [], x);
  }

  /** The three parts of a project, one after the other. */
  lemma ProjectInParts(s: Store, p: Project)
    ensures Created(s, p) ==
      match Inserted(s, FirstInsertion(p))
      case None => None
      case Some(s1) =>
        match InsertedAll(s1, Map(RequirementOf(p.id), p.requirements))
        case None => None
        case Some(s2) => InsertedAll(s2, Flatten(Map(PlanInsertions(p.id), p.plans)))
  {
    hide Inserted, InsertedAll, FirstInsertion, RequirementOf, PlanInsertions, Map, Flatten;
    var first := FirstInsertion(p);
    var requirements := Map(RequirementOf(p.id), p.requirements);
    var plans := Flatten(Map(PlanInsertions(p.id), p.plans));
    assert [first] + requirements + plans == [first] + (requirements + plans);
    InsertedHead(s, first, requirements + plans);
    if Inserted(s, first).Some? {
      InsertedAppend(Inserted(s, first).value, requirements, plans);
    }
  }

  lemma NothingInserted<T>(s: Store, f: T -> Insertion, ids: seq<T>)
    ensures InsertedAll(s, Map(f, ids[..0])) == Some(s)
  {
  }

  lemma NoPlanInserted(s: Store, p: Project)
    ensures InsertedAll(s, Flatten(Map(PlanInsertions(p.id), p.plans[..0]))) == Some(s)
  {
  }

  // ---------------------------------------------------------------- the tables, updated in place

  /** The database: its methods update the tables, or leave them all alone. */
  class Database {
    var graph: Graph
    var rows: map<string, Row>
    var log: seq<Event>

    ghost function Contents(): Store
      reads this
    {
      Store(graph, rows, log)
    }

    constructor ()
      ensures Contents() == EMPTY.store
    {
      graph, rows, log := Graph(map[], map[], map[]), map[], [];
    }

    method IsTaken(e: Event) returns (taken: bool)
      ensures taken <==> Taken(log, e)
    {
      for k := 0 to |log|
        invariant forall j :: 0 <= j < k ==> !Clash(log[j], e)
      {
        if Clash(log[k], e) { return true; }
      }
      taken := false;
    }

    /** An event of any record, with the rows that belong to it. */
    method Insert(x: Insertion) returns (ok: bool)
      modifies this
      ensures ok == Inserted(old(Contents()), x).Some?
      ensures Contents() == if ok then Inserted(old(Contents()), x).value else old(Contents())
    {
      hide Taken, Added;
      var e := x.event;
      var added := Added(graph, x);
      if added.None? || (e.aggregate.WorkPackage? && e.aggregateId in rows) { return false; }
      var taken := IsTaken(e);
      if taken { return false; }
      graph := added.value;
      if e.aggregate.WorkPackage? {
        rows := rows[e.aggregateId := Row(e.projectId, Planned, 1)];
      }
      log := log + [e];
      ok := true;
    }

    /** A plan and its packages, up to the first repeated key. */
    method InsertPlan(projectId: string, plan: Plan) returns (ok: bool)
      modifies this
      ensures ok == InsertedAll(old(Contents()), PlanInsertions(projectId)(plan)).Some?
      ensures ok ==> Contents() == InsertedAll(old(Contents()), PlanInsertions(projectId)(plan)).value
    {
      hide Inserted, InsertedAll, CreationOf, PackageOf, Map;
      ghost var start := Contents();
      var first := Insertion(CreationOf(projectId, Other("plan"), plan.id), NoContent);
      ghost var packages := Map(PackageOf(projectId), plan.packageIds);
      InsertedHead(start, first, packages);
      ok := Insert(first);
      if !ok { return; }
      ghost var s := Contents();
      NothingInserted(s, PackageOf(projectId), plan.packageIds);
      for i := 0 to |plan.packageIds|
        invariant InsertedAll(s, Map(PackageOf(projectId), plan.packageIds[..i])) == Some(Contents())
      {
        MapUpTo(PackageOf(projectId), plan.packageIds, s, i);
        ok := Insert(PackageOf(projectId)(plan.packageIds[i]));
        if !ok { return; }
      }
      assert plan.packageIds[..|plan.packageIds|] == plan.packageIds;
    }

    /** The project's insertions, up to the first repeated key. */
    method InsertProject(p: Project) returns (ok: bool)
      modifies this
      ensures ok == Created(old(Contents()), p).Some?
      ensures ok ==> Contents() == Created(old(Contents()), p).value
    {
      hide Inserted, InsertedAll, FirstInsertion, RequirementOf, PlanInsertions, Map, Flatten, Created;
      ProjectInParts(Contents(), p);
      ok := Insert(FirstInsertion(p));
      if !ok { return; }
      ghost var s := Contents();
      NothingInserted(s, RequirementOf(p.id), p.requirements);
      for i := 0 to |p.requirements|
        invariant InsertedAll(s, Map(RequirementOf(p.id), p.requirements[..i])) == Some(Contents())
      {
        MapUpTo(RequirementOf(p.id), p.requirements, s, i);
        ok := Insert(RequirementOf(p.id)(p.requirements[i]));
        if !ok { return; }
      }
      assert p.requirements[..|p.requirements|] == p.requirements;
      ghost var s2 := Contents();
      NoPlanInserted(s2, p);
      for i := 0 to |p.plans|
        invariant InsertedAll(s2, Flatten(Map(PlanInsertions(p.id), p.plans[..i]))) == Some(Contents())
      {
        PlansUpTo(p, s2, i);
        ok := InsertPlan(p.id, p.plans[i]);
        if !ok { return; }
      }
      assert p.plans[..|p.plans|] == p.plans;
    }

    /** A whole project in one transaction, or nothing of it; then reading back what was written. */
    method CreateProject(p: Project, trim: string -> string) returns (r: CreateOutcome)
      modifies this
      ensures r == CreationFor(old(Contents()), p, trim)
      ensures Contents() == if r == Refused then old(Contents()) else Created(old(Contents()), p).value
    {
      hide Created, ReadsBack;
      var graphBefore, rowsBefore, logBefore := graph, rows, log;
      var ok := InsertProject(p);
      if !ok {
        graph, rows, log := graphBefore, rowsBefore, logBefore;
        return Refused;
      }
      r := if ReadsBack(graph, p.id, trim) then Returned else Thrown;
    }

    method ReadPackage(packageId: string, to: Status) returns (c: Option<Snapshot>)
      ensures c == ReadFor(Contents(), packageId, to)
    {
      if packageId !in rows { return None; }
      var current := rows[packageId];
      if to !in Next(current.status) { return None; }
      c := Some(Snapshot(packageId, current, to));
    }

    method WritePackage(c: Snapshot, eventId: string) returns (ok: bool)
      modifies this
      ensures ok == Written(old(Contents()), c, eventId).Some?
      ensures Contents() == if ok then Written(old(Contents()), c, eventId).value else old(Contents())
    {
      hide Taken;
      var nextVersion := c.row.version + 1;
      if c.packageId !in rows || rows[c.packageId].version != c.row.version { return false; }
      var event := TransitionOf(c, eventId);
      var taken := IsTaken(event);
      if taken { return false; }
      rows := rows[c.packageId := rows[c.packageId].(status := c.to, version := nextVersion)];
      log := log + [event];
      ok := true;
    }

    /** A lone transaction: reading and writing with nobody in between. */
    method TransitionPackage(packageId: string, to: Status, eventId: string) returns (ok: bool)
      modifies this
      ensures var s := old(Contents());
        if packageId in s.rows && Allowed(s.rows[packageId].status, to)
           && !Taken(s.log, TransitionOf(Snapshot(packageId, s.rows[packageId], to), eventId))
        then
          && ok && Contents().graph == s.graph
          && rows == s.rows[packageId := s.rows[packageId].(status := to, version := s.rows[packageId].version + 1)]
          && log == s.log + [TransitionOf(Snapshot(packageId, s.rows[packageId], to), eventId)]
        else !ok && Contents() == s
    {
      hide Taken;
      var c := ReadPackage(packageId, to);
      if c.None? { return false; }
      ok := WritePackage(c.value, eventId);
    }
  }
}
