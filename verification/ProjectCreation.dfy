/** Creating a project read off the project and the tables alone: when its transaction goes through, and what it then
    has written. */
module ProjectCreation {
  import opened Collections
  import opened WorkPackageStore

  // ---------------------------------------------------------------- any run of insertions

  function EventIn(): Insertion -> Event {
    (x: Insertion) => x.event
  }

  /** A creation in this project, whose content goes with what is created. */
  ghost predicate Creates(x: Insertion, projectId: string) {
    && x.event.version == 1 && x.event.projectId == projectId
    && (x.content.ProjectContent? ==> x.event.aggregate == Other("project"))
    && (x.content.RequirementContent? ==> x.event.aggregate == Other("requirement"))
  }

  ghost predicate AllCreate(xs: seq<Insertion>, projectId: string) {
    forall i :: 0 <= i < |xs| ==> Creates(xs[i], projectId)
  }

  /** Nothing in the tables stands in the insertion's way. */
  ghost predicate Room(s: Store, x: Insertion) {
    && !Taken(s.log, x.event) && (x.event.aggregate.WorkPackage? ==> x.event.aggregateId !in s.rows)
    && RoomInGraph(s.graph, x)
  }

  ghost predicate RoomInGraph(g: Graph, x: Insertion) {
    match x.content
    case NoContent => true
    case ProjectContent(_) => x.event.aggregateId !in g.projects
    case RequirementContent(criteria) =>
      && x.event.aggregateId !in g.requirements && NoDuplicates(criteria)
      && forall c :: c in criteria ==> c !in g.criteria
  }

  /** The second does not stand in the way of the first, nor the other way round. */
  ghost predicate GoTogether(x: Insertion, y: Insertion) {
    && !Clash(x.event, y.event)
    && (x.content.RequirementContent? && y.content.RequirementContent? ==>
          forall c :: c in x.content.criteria ==> c !in y.content.criteria)
  }

  ghost predicate Free(s: Store, xs: seq<Insertion>) {
    && (forall i :: 0 <= i < |xs| ==> Room(s, xs[i]))
    && forall i, j :: 0 <= i < j < |xs| ==> GoTogether(xs[i], xs[j])
  }

  /** Some insertion creates this package. */
  ghost predicate MakesPackage(xs: seq<Insertion>, id: string) {
    exists i :: 0 <= i < |xs| && xs[i].event.aggregate == WorkPackage && xs[i].event.aggregateId == id
  }

  ghost predicate RowsAfter(rows: map<string, Row>, xs: seq<Insertion>, rows': map<string, Row>, projectId: string) {
    && (forall id :: id in rows' <==> id in rows || MakesPackage(xs, id))
    && forall id :: id in rows' ==> rows'[id] == if id in rows then rows[id] else Row(projectId, Planned, 1)
  }

  ghost predicate MakesProject(xs: seq<Insertion>, id: string) {
    exists i :: 0 <= i < |xs| && xs[i].content.ProjectContent? && xs[i].event.aggregateId == id
  }

  ghost predicate ProjectsAfter(projects: map<string, string>, xs: seq<Insertion>, projects': map<string, string>) {
    && (forall id :: id in projects' <==> id in projects || MakesProject(xs, id))
    && (forall id :: id in projects ==> projects'[id] == projects[id])
    && forall i :: 0 <= i < |xs| && xs[i].content.ProjectContent? ==>
         xs[i].event.aggregateId in projects' && projects'[xs[i].event.aggregateId] == xs[i].content.name
  }

  ghost predicate MakesRequirement(xs: seq<Insertion>, id: string) {
    exists i :: 0 <= i < |xs| && xs[i].content.RequirementContent? && xs[i].event.aggregateId == id
  }

  ghost predicate RequirementsAfter(
    requirements: map<string, string>, xs: seq<Insertion>, requirements': map<string, string>, projectId: string)
  {
    && (forall id :: id in requirements' <==> id in requirements || MakesRequirement(xs, id))
    && forall id :: id in requirements' ==>
         requirements'[id] == if id in requirements then requirements[id] else projectId
  }

  ghost predicate MakesCriterion(xs: seq<Insertion>, c: string, requirement: string) {
    exists i ::
      0 <= i < |xs| && xs[i].content.RequirementContent? && c in xs[i].content.criteria
      && xs[i].event.aggregateId == requirement
  }

  ghost predicate CriteriaAfter(criteria: map<string, string>, xs: seq<Insertion>, criteria': map<string, string>) {
    && (forall c :: c in criteria' ==> c in criteria || MakesCriterion(xs, c, criteria'[c]))
    && (forall c :: c in criteria ==> c in criteria' && criteria'[c] == criteria[c])
    && forall c, r :: MakesCriterion(xs, c, r) ==> c in criteria' && criteria'[c] == r
  }

  ghost predicate After(s: Store, xs: seq<Insertion>, s': Store, projectId: string) {
    && s'.log == s.log + Map(EventIn(), xs)
    && RowsAfter(s.rows, xs, s'.rows, projectId) && ProjectsAfter(s.graph.projects, xs, s'.graph.projects)
    && RequirementsAfter(s.graph.requirements, xs, s'.graph.requirements, projectId)
    && CriteriaAfter(s.graph.criteria, xs, s'.graph.criteria)
  }

  lemma RoomMeans(s: Store, x: Insertion)
    ensures Inserted(s, x).Some? <==> Room(s, x)
  {
    hide Taken, NoDuplicates;
  }

  /** What stands in the way after some insertions did before, or is one of them. */
  lemma RoomAfter(s: Store, xs: seq<Insertion>, s': Store, x: Insertion, projectId: string)
    requires After(s, xs, s', projectId) && AllCreate(xs, projectId) && Creates(x, projectId)
    ensures Room(s', x) <==> Room(s, x) && forall i :: 0 <= i < |xs| ==> GoTogether(xs[i], x)
  {
    hide NoDuplicates, Room, Taken, RowsAfter, ProjectsAfter, RequirementsAfter, CriteriaAfter;
    TakenAfter(s, xs, s', x);
    if x.event.aggregate.WorkPackage? { RowRoom(s, xs, s', x, projectId); }
    GraphRoom(s, xs, s', x, projectId);
    RoomParts(s, x);
    RoomParts(s', x);
  }

  lemma RoomParts(s: Store, x: Insertion)
    ensures Room(s, x) <==>
      && !Taken(s.log, x.event) && (x.event.aggregate.WorkPackage? ==> x.event.aggregateId !in s.rows)
      && RoomInGraph(s.graph, x)
  {
  }

  lemma TakenAppend(log: seq<Event>, more: seq<Event>, e: Event)
    ensures Taken(log + more, e) <==> Taken(log, e) || Taken(more, e)
  {
    hide Clash;
    var all := log + more;
    if k :| 0 <= k < |more| && Clash(more[k], e) {
      assert all[|log| + k] == more[k];
    }
    if k :| 0 <= k < |log| && Clash(log[k], e) {
      assert all[k] == log[k];
    }
  }

  lemma TakenAfter(s: Store, xs: seq<Insertion>, s': Store, x: Insertion)
    requires s'.log == s.log + Map(EventIn(), xs)
    ensures Taken(s'.log, x.event) <==>
      Taken(s.log, x.event) || exists i :: 0 <= i < |xs| && Clash(xs[i].event, x.event)
  {
    hide Clash;
    var events := Map(EventIn(), xs);
    TakenAppend(s.log, events, x.event);
    assert forall i :: 0 <= i < |xs| ==> events[i] == xs[i].event;
    if i :| 0 <= i < |xs| && Clash(xs[i].event, x.event) {
      assert Clash(events[i], x.event);
    }
  }

  lemma RowRoom(s: Store, xs: seq<Insertion>, s': Store, x: Insertion, projectId: string)
    requires RowsAfter(s.rows, xs, s'.rows, projectId) && AllCreate(xs, projectId) && Creates(x, projectId)
    requires x.event.aggregate.WorkPackage?
    ensures x.event.aggregateId in s.rows ==> x.event.aggregateId in s'.rows
    ensures x.event.aggregateId in s'.rows ==>
      x.event.aggregateId in s.rows || exists i :: 0 <= i < |xs| && Clash(xs[i].event, x.event)
  {
    if MakesPackage(xs, x.event.aggregateId) {
      var i :| 0 <= i < |xs| && xs[i].event.aggregate == WorkPackage && xs[i].event.aggregateId == x.event.aggregateId;
      assert Creates(xs[i], projectId) && Clash(xs[i].event, x.event);
    }
  }

  lemma GraphRoom(s: Store, xs: seq<Insertion>, s': Store, x: Insertion, projectId: string)
    requires ProjectsAfter(s.graph.projects, xs, s'.graph.projects) && AllCreate(xs, projectId) && Creates(x, projectId)
    requires RequirementsAfter(s.graph.requirements, xs, s'.graph.requirements, projectId)
    requires CriteriaAfter(s.graph.criteria, xs, s'.graph.criteria)
    ensures RoomInGraph(s'.graph, x) ==>
      RoomInGraph(s.graph, x) && forall i :: 0 <= i < |xs| && !Clash(xs[i].event, x.event) ==> GoTogether(xs[i], x)
    ensures RoomInGraph(s.graph, x) && (forall i :: 0 <= i < |xs| ==> GoTogether(xs[i], x)) ==> RoomInGraph(s'.graph, x)
  {
    hide NoDuplicates;
    var id := x.event.aggregateId;
    if x.content.ProjectContent? && MakesProject(xs, id) {
      var i :| 0 <= i < |xs| && xs[i].content.ProjectContent? && xs[i].event.aggregateId == id;
      assert Creates(xs[i], projectId) && !GoTogether(xs[i], x);
    }
    if x.content.RequirementContent? {
      if MakesRequirement(xs, id) {
        var i :| 0 <= i < |xs| && xs[i].content.RequirementContent? && xs[i].event.aggregateId == id;
        assert Creates(xs[i], projectId) && !GoTogether(xs[i], x);
      }
      forall i, c | 0 <= i < |xs| && xs[i].content.RequirementContent? && c in xs[i].content.criteria
        ensures c in s'.graph.criteria
      {
        assert MakesCriterion(xs, c, xs[i].event.aggregateId);
      }
    }
  }

  lemma MakesSnoc(xs: seq<Insertion>, x: Insertion)
    ensures forall id :: MakesPackage(xs + [x], id) <==>
      MakesPackage(xs, id) || (x.event.aggregate == WorkPackage && x.event.aggregateId == id)
    ensures forall id :: MakesProject(xs + [x], id) <==>
      MakesProject(xs, id) || (x.content.ProjectContent? && x.event.aggregateId == id)
    ensures forall id :: MakesRequirement(xs + [x], id) <==>
      MakesRequirement(xs, id) || (x.content.RequirementContent? && x.event.aggregateId == id)
    ensures forall c, r :: MakesCriterion(xs + [x], c, r) <==>
      MakesCriterion(xs, c, r)
      || (x.content.RequirementContent? && c in x.content.criteria && x.event.aggregateId == r)
  {
    var all := xs + [x];
    assert all[|xs|] == x;
    assert forall i :: 0 <= i < |xs| ==> all[i] == xs[i];
  }

  /** One insertion more. */
  lemma AfterStep(s: Store, xs: seq<Insertion>, s1: Store, x: Insertion, projectId: string)
    requires After(s, xs, s1, projectId) && Creates(x, projectId) && Inserted(s1, x).Some?
    ensures After(s, xs + [x], Inserted(s1, x).value, projectId)
  {
    hide Taken, NoDuplicates, MakesPackage, MakesProject, MakesRequirement, ProjectsAfter, CriteriaAfter;
    MakesSnoc(xs, x);
    MapSnoc(EventIn(), xs, x);
    var s' := Inserted(s1, x).value;
    assert RowsAfter(s.rows, xs + [x], s'.rows, projectId);
    ProjectsStep(s, xs, s1, x, projectId);
    assert RequirementsAfter(s.graph.requirements, xs + [x], s'.graph.requirements, projectId);
    CriteriaStep(s, xs, s1, x);
    assert s'.log == s.log + (Map(EventIn(), xs) + [x.event]);
  }

  lemma ProjectsStep(s: Store, xs: seq<Insertion>, s1: Store, x: Insertion, projectId: string)
    requires ProjectsAfter(s.graph.projects, xs, s1.graph.projects) && Inserted(s1, x).Some?
    ensures ProjectsAfter(s.graph.projects, xs + [x], Inserted(s1, x).value.graph.projects)
  {
    hide Taken, NoDuplicates, MakesProject;
    MakesSnoc(xs, x);
    assert forall i :: 0 <= i < |xs| ==> (xs + [x])[i] == xs[i];
  }

  lemma CriteriaStep(s: Store, xs: seq<Insertion>, s1: Store, x: Insertion)
    requires CriteriaAfter(s.graph.criteria, xs, s1.graph.criteria) && Inserted(s1, x).Some?
    ensures CriteriaAfter(s.graph.criteria, xs + [x], Inserted(s1, x).value.graph.criteria)
  {
    hide Taken, NoDuplicates, MakesCriterion;
    MakesSnoc(xs, x);
  }

  lemma FreeSnoc(s: Store, xs: seq<Insertion>, x: Insertion)
    ensures Free(s, xs + [x]) <==>
      Free(s, xs) && Room(s, x) && forall i :: 0 <= i < |xs| ==> GoTogether(xs[i], x)
  {
    hide Room, GoTogether;
    var all := xs + [x];
    assert all[|xs|] == x;
    assert forall i :: 0 <= i < |xs| ==> all[i] == xs[i];
  }

  /** A transaction goes through exactly when each of its insertions has room and no two are in each other's way. */
  lemma {:induction false} AllInsertedIff(s: Store, xs: seq<Insertion>, projectId: string)
    requires AllCreate(xs, projectId)
    ensures InsertedAll(s, xs).Some? <==> Free(s, xs)
    ensures InsertedAll(s, xs).Some? ==> After(s, xs, InsertedAll(s, xs).value, projectId)
  {
    hide Inserted, Room, Free, After, Creates, GoTogether;
    if xs == [] {
      NothingAfter(s, projectId);
    } else {
      var front, last := xs[..|xs| - 1], xs[|xs| - 1];
      assert xs == front + [last];
      AllInsertedIff(s, front, projectId);
      FreeSnoc(s, front, last);
      if InsertedAll(s, front).Some? {
        var s1 := InsertedAll(s, front).value;
        RoomMeans(s1, last);
        RoomAfter(s, front, s1, last, projectId);
        if Inserted(s1, last).Some? {
          AfterStep(s, front, s1, last, projectId);
        }
      }
    }
  }

  lemma NothingAfter(s: Store, projectId: string)
    ensures Free(s, []) && After(s, [], s, projectId)
  {
  }

  // ---------------------------------------------------------------- a project

  /** Something a project consists of, and its id. */
  datatype Part = Part(kind: Aggregate, id: string)

  ghost function PlanParts(plans: seq<Plan>): seq<Part> {
    if plans == [] then []
    else
      var ids := plans[0].packageIds;
      [Part(Other("plan"), plans[0].id)] + seq(|ids|, i requires 0 <= i < |ids| => Part(WorkPackage, ids[i]))
      + PlanParts(plans[1..])
  }

  /** The project, its requirements, and its plans, each with its packages. */
  ghost function PartsOf(p: Project): seq<Part> {
    [Part(Other("project"), p.id)]
    + seq(|p.requirements|, i requires 0 <= i < |p.requirements| => Part(Other("requirement"), p.requirements[i].id))
    + PlanParts(p.plans)
  }

  ghost predicate Logs(e: Event, part: Part, projectId: string) {
    && e.id == "EVT-" + part.id + "-CREATED" && e.projectId == projectId
    && e.aggregate == part.kind && e.aggregateId == part.id && e.version == 1 && e.change == Creation
  }

  /** No event has the part's event id, or is about its first version, and no row has its id. */
  ghost predicate NewTo(s: Store, part: Part) {
    && (forall k :: 0 <= k < |s.log| ==>
          && s.log[k].id != "EVT-" + part.id + "-CREATED"
          && !(s.log[k].aggregate == part.kind && s.log[k].aggregateId == part.id && s.log[k].version == 1))
    && (part.kind == WorkPackage ==> part.id !in s.rows)
    && (part.kind == Other("project") ==> part.id !in s.graph.projects)
    && (part.kind == Other("requirement") ==> part.id !in s.graph.requirements)
  }

  /** Every part is new and no two have one id, of whatever kind; every criterion is new and no two have one id. */
  ghost predicate Creatable(s: Store, p: Project) {
    var parts := PartsOf(p);
    && (forall i :: 0 <= i < |parts| ==> NewTo(s, parts[i]))
    && (forall i, j :: 0 <= i < j < |parts| ==> parts[i].id != parts[j].id)
    && (forall i :: 0 <= i < |p.requirements| ==> NewCriteria(s, p.requirements[i].criteria))
    && forall i, j :: 0 <= i < j < |p.requirements| ==> Disjoint(p.requirements[i].criteria, p.requirements[j].criteria)
  }

  ghost predicate NewCriteria(s: Store, criteria: seq<string>) {
    && (forall c :: c in criteria ==> c !in s.graph.criteria)
    && forall i, j :: 0 <= i < j < |criteria| ==> criteria[i] != criteria[j]
  }

  ghost predicate Disjoint(xs: seq<string>, ys: seq<string>) {
    forall c :: c in xs ==> c !in ys
  }

  /** One creation event for each part, a planned row in its first version for each package, and the project's name,
      its requirements and their criteria; everything else is as it was. */
  ghost predicate Wrote(s: Store, p: Project, s': Store) {
    var parts := PartsOf(p);
    && s.log <= s'.log && |s'.log| == |s.log| + |parts|
    && (forall i :: 0 <= i < |parts| ==> Logs(s'.log[|s.log| + i], parts[i], p.id))
    && (forall id :: id in s'.rows <==> id in s.rows || Part(WorkPackage, id) in parts)
    && (forall id :: id in s'.rows ==> s'.rows[id] == if id in s.rows then s.rows[id] else Row(p.id, Planned, 1))
    && s'.graph.projects == s.graph.projects[p.id := p.name]
    && (forall r :: r in s'.graph.requirements <==> r in s.graph.requirements || Part(Other("requirement"), r) in parts)
    && (forall r :: r in s'.graph.requirements ==>
          s'.graph.requirements[r] == if r in s.graph.requirements then s.graph.requirements[r] else p.id)
    && (forall c :: c in s'.graph.criteria ==> c in s.graph.criteria || GivesCriterion(p, c, s'.graph.criteria[c]))
    && (forall c :: c in s.graph.criteria ==> c in s'.graph.criteria && s'.graph.criteria[c] == s.graph.criteria[c])
    && (forall c, r :: GivesCriterion(p, c, r) ==> c in s'.graph.criteria && s'.graph.criteria[c] == r)
  }

  ghost predicate GivesCriterion(p: Project, c: string, requirement: string) {
    exists i :: 0 <= i < |p.requirements| && p.requirements[i].id == requirement && c in p.requirements[i].criteria
  }

  /** The insertions of a project are about its parts, in order, and have their contents. */
  ghost predicate InsertsParts(p: Project, xs: seq<Insertion>) {
    var parts, n := PartsOf(p), |p.requirements|;
    && |xs| == |parts| && |parts| > n
    && (forall i :: 0 <= i < |xs| ==> Logs(xs[i].event, parts[i], p.id))
    && xs[0].content == ProjectContent(p.name) && parts[0] == Part(Other("project"), p.id)
    && (forall i :: 0 <= i < n ==>
          && xs[i + 1].content == RequirementContent(p.requirements[i].criteria)
          && parts[i + 1] == Part(Other("requirement"), p.requirements[i].id))
    && forall i :: n < i < |xs| ==> xs[i].content == NoContent && parts[i].kind in {WorkPackage, Other("plan")}
  }

  ghost predicate InsertsPlans(projectId: string, parts: seq<Part>, xs: seq<Insertion>) {
    && |xs| == |parts|
    && forall i :: 0 <= i < |xs| ==>
         && Logs(xs[i].event, parts[i], projectId) && xs[i].content == NoContent
         && parts[i].kind in {WorkPackage, Other("plan")}
  }

  lemma {:induction false} PlansInserted(projectId: string, plans: seq<Plan>)
    ensures InsertsPlans(projectId, PlanParts(plans), Flatten(Map(PlanInsertions(projectId), plans)))
  {
    hide Logs;
    if plans == [] {
    } else {
      PlansInserted(projectId, plans[1..]);
      MapHead(PlanInsertions(projectId), plans);
      PlanInserted(projectId, plans[0]);
      var first := PlanInsertions(projectId)(plans[0]);
      var parts := PlanParts(plans);
      PlansAppend(projectId, parts[..|first|], first, PlanParts(plans[1..]),
                  Flatten(Map(PlanInsertions(projectId), plans[1..])));
      assert parts[..|first|] + PlanParts(plans[1..]) == parts;
    }
  }

  lemma PlansAppend(projectId: string, ps: seq<Part>, xs: seq<Insertion>, qs: seq<Part>, ys: seq<Insertion>)
    requires InsertsPlans(projectId, ps, xs) && InsertsPlans(projectId, qs, ys)
    ensures InsertsPlans(projectId, ps + qs, xs + ys)
  {
    hide Logs;
  }

  lemma PlanInserted(projectId: string, plan: Plan)
    ensures InsertsPlans(projectId,
                         [Part(Other("plan"), plan.id)]
                         + seq(|plan.packageIds|,
                               i requires 0 <= i < |plan.packageIds| => Part(WorkPackage, plan.packageIds[i])),
                         PlanInsertions(projectId)(plan))
  {
  }

  lemma FirstInserted(p: Project)
    ensures Logs(FirstInsertion(p).event, Part(Other("project"), p.id), p.id)
    ensures FirstInsertion(p).content == ProjectContent(p.name)
  {
  }

  lemma RequirementInserted(projectId: string, r: Requirement)
    ensures Logs(RequirementOf(projectId)(r).event, Part(Other("requirement"), r.id), projectId)
    ensures RequirementOf(projectId)(r).content == RequirementContent(r.criteria)
  {
  }

  lemma PartsInserted(p: Project)
    ensures InsertsParts(p, ProjectInsertions(p))
  {
    hide Flatten, PlanParts, PlanInsertions, Logs, FirstInsertion, RequirementOf, PartsOf, Map;
    FirstInserted(p);
    PlansInserted(p.id, p.plans);
    var n := |p.requirements|;
    var parts, xs := PartsOf(p), ProjectInsertions(p);
    var made, plans := Map(RequirementOf(p.id), p.requirements), Flatten(Map(PlanInsertions(p.id), p.plans));
    RequirementsInserted(p);
    PartsAre(p);
    assert xs == [FirstInsertion(p)] + made + plans;
    forall i | 0 <= i < n ensures xs[i + 1] == made[i] {
    }
    forall i | n < i < |xs| ensures xs[i] == plans[i - n - 1] && parts[i] == PlanParts(p.plans)[i - n - 1] {
    }
    forall i | 0 <= i < |xs| ensures Logs(xs[i].event, parts[i], p.id) {
      if 0 < i <= n {
        assert xs[i - 1 + 1] == made[i - 1] && parts[i - 1 + 1] == Part(Other("requirement"), p.requirements[i - 1].id);
      }
    }
    hide ProjectInsertions;
  }

  lemma RequirementsInserted(p: Project)
    ensures var made := Map(RequirementOf(p.id), p.requirements);
      |made| == |p.requirements| && forall i :: 0 <= i < |made| ==>
        && Logs(made[i].event, Part(Other("requirement"), p.requirements[i].id), p.id)
        && made[i].content == RequirementContent(p.requirements[i].criteria)
  {
    hide Logs, RequirementOf;
    forall r ensures Logs(RequirementOf(p.id)(r).event, Part(Other("requirement"), r.id), p.id)
      && RequirementOf(p.id)(r).content == RequirementContent(r.criteria)
    {
      RequirementInserted(p.id, r);
    }
  }

  lemma PartsAre(p: Project)
    ensures var parts, n := PartsOf(p), |p.requirements|;
      && |parts| == n + 1 + |PlanParts(p.plans)| && parts[0] == Part(Other("project"), p.id)
      && (forall i :: 0 <= i < n ==> parts[i + 1] == Part(Other("requirement"), p.requirements[i].id))
      && forall i :: n < i < |parts| ==> parts[i] == PlanParts(p.plans)[i - n - 1]
  {
    hide PlanParts;
  }

  lemma OneEventEach(a: string, b: string)
    ensures "EVT-" + a + "-CREATED" == "EVT-" + b + "-CREATED" <==> a == b
  {
    var x, y := "EVT-" + a + "-CREATED", "EVT-" + b + "-CREATED";
    assert x[4..|x| - 8] == a && y[4..|y| - 8] == b;
  }

  lemma PartsClash(e: Event, f: Event, part: Part, other: Part, projectId: string)
    requires Logs(e, part, projectId) && Logs(f, other, projectId)
    ensures Clash(e, f) <==> part.id == other.id
  {
    OneEventEach(part.id, other.id);
  }

  lemma RoomForPart(s: Store, x: Insertion, part: Part, projectId: string)
    requires Logs(x.event, part, projectId)
    requires x.content.ProjectContent? <==> part.kind == Other("project")
    requires x.content.RequirementContent? <==> part.kind == Other("requirement")
    ensures Room(s, x) <==>
      NewTo(s, part) && (x.content.RequirementContent? ==> NewCriteria(s, x.content.criteria))
  {
  }

  lemma InsertsItsParts(p: Project, xs: seq<Insertion>, i: nat)
    requires InsertsParts(p, xs) && i < |xs|
    ensures Creates(xs[i], p.id)
    ensures xs[i].content.ProjectContent? <==> PartsOf(p)[i].kind == Other("project")
    ensures xs[i].content.RequirementContent? <==> PartsOf(p)[i].kind == Other("requirement")
    ensures xs[i].content.ProjectContent? <==> i == 0
    ensures xs[i].content.RequirementContent? <==> 0 < i <= |p.requirements|
    ensures 0 < i <= |p.requirements| ==> xs[i].content.criteria == p.requirements[i - 1].criteria
  {
    hide PartsOf;
    assert "project" != "requirement" && "plan" != "project" && "plan" != "requirement";
    if 0 < i <= |p.requirements| {
      assert xs[i - 1 + 1].content == RequirementContent(p.requirements[i - 1].criteria);
    }
  }

  lemma FreeMeans(s: Store, p: Project, xs: seq<Insertion>)
    requires InsertsParts(p, xs)
    ensures Free(s, xs) <==> Creatable(s, p)
  {
    hide Logs, Room, NewTo, NewCriteria, PartsOf, Clash, Creates;
    var parts, n := PartsOf(p), |p.requirements|;
    forall i | 0 <= i < |xs| ensures
      && Creates(xs[i], p.id) && (xs[i].content.RequirementContent? <==> 0 < i <= n)
      && (0 < i <= n ==> xs[i].content.criteria == p.requirements[i - 1].criteria)
      && (Room(s, xs[i]) <==> NewTo(s, parts[i]) && (0 < i <= n ==> NewCriteria(s, p.requirements[i - 1].criteria)))
    {
      InsertsItsParts(p, xs, i);
      RoomForPart(s, xs[i], parts[i], p.id);
    }
    forall i, j | 0 <= i < j < |xs| ensures Clash(xs[i].event, xs[j].event) <==> parts[i].id == parts[j].id {
      PartsClash(xs[i].event, xs[j].event, parts[i], parts[j], p.id);
    }
    hide InsertsParts;
    if Free(s, xs) {
      forall i | 0 <= i < n ensures NewCriteria(s, p.requirements[i].criteria) {
        assert Room(s, xs[i + 1]);
      }
      forall i, j | 0 <= i < j < n ensures Disjoint(p.requirements[i].criteria, p.requirements[j].criteria) {
        assert GoTogether(xs[i + 1], xs[j + 1]);
      }
    }
    if Creatable(s, p) {
      forall i, j | 0 <= i < j < |xs| ensures GoTogether(xs[i], xs[j]) {
        if 0 < i && j <= n {
          assert Disjoint(p.requirements[i - 1].criteria, p.requirements[j - 1].criteria);
        }
      }
    }
  }

  lemma PartsMade(p: Project, xs: seq<Insertion>)
    requires InsertsParts(p, xs)
    ensures forall id :: MakesPackage(xs, id) <==> Part(WorkPackage, id) in PartsOf(p)
    ensures forall id :: MakesRequirement(xs, id) <==> Part(Other("requirement"), id) in PartsOf(p)
    ensures forall id :: MakesProject(xs, id) <==> id == p.id
    ensures forall c, r :: MakesCriterion(xs, c, r) <==> GivesCriterion(p, c, r)
  {
    hide PartsOf, Creates;
    var parts, n := PartsOf(p), |p.requirements|;
    forall i | 0 <= i < |xs| ensures
      && xs[i].event.aggregate == parts[i].kind && xs[i].event.aggregateId == parts[i].id
      && (xs[i].content.ProjectContent? <==> i == 0)
      && (xs[i].content.RequirementContent? <==> parts[i].kind == Other("requirement"))
    {
      InsertsItsParts(p, xs, i);
    }
    forall id ensures MakesPackage(xs, id) <==> Part(WorkPackage, id) in parts {
      if k :| 0 <= k < |parts| && parts[k] == Part(WorkPackage, id) {
        assert xs[k].event.aggregate == WorkPackage && xs[k].event.aggregateId == id;
      }
    }
    forall id ensures MakesRequirement(xs, id) <==> Part(Other("requirement"), id) in parts {
      if i :| 0 <= i < |xs| && xs[i].content.RequirementContent? && xs[i].event.aggregateId == id {
        assert parts[i] == Part(Other("requirement"), id);
      }
      if k :| 0 <= k < |parts| && parts[k] == Part(Other("requirement"), id) {
        assert xs[k].content.RequirementContent? && xs[k].event.aggregateId == id;
      }
    }
    assert xs[0].content.ProjectContent? && xs[0].event.aggregateId == p.id;
    CriteriaMade(p, xs);
  }

  lemma CriteriaMade(p: Project, xs: seq<Insertion>)
    requires InsertsParts(p, xs)
    ensures forall c, r :: MakesCriterion(xs, c, r) <==> GivesCriterion(p, c, r)
  {
    hide PartsOf, Creates;
    forall c, r ensures MakesCriterion(xs, c, r) <==> GivesCriterion(p, c, r) {
      if MakesCriterion(xs, c, r) {
        var i :| 0 <= i < |xs| && xs[i].content.RequirementContent? && c in xs[i].content.criteria
          && xs[i].event.aggregateId == r;
        InsertsItsParts(p, xs, i);
        assert p.requirements[i - 1].id == r && c in p.requirements[i - 1].criteria;
      }
      if i :| 0 <= i < |p.requirements| && p.requirements[i].id == r && c in p.requirements[i].criteria {
        assert xs[i + 1].content == RequirementContent(p.requirements[i].criteria);
        assert PartsOf(p)[i + 1] == Part(Other("requirement"), p.requirements[i].id);
      }
    }
  }

  lemma AfterMeans(s: Store, p: Project, xs: seq<Insertion>, s': Store)
    requires InsertsParts(p, xs) && After(s, xs, s', p.id) && p.id !in s.graph.projects
    ensures Wrote(s, p, s')
  {
    hide PartsOf, Logs, MakesPackage, MakesProject, MakesRequirement, MakesCriterion, GivesCriterion;
    PartsMade(p, xs);
    var parts, events := PartsOf(p), Map(EventIn(), xs);
    forall i | 0 <= i < |parts| ensures Logs(s'.log[|s.log| + i], parts[i], p.id) {
      assert events[i] == xs[i].event && Logs(xs[i].event, parts[i], p.id);
    }
    ProjectIsWritten(s.graph.projects, p, xs, s'.graph.projects);
  }

  lemma ProjectIsWritten(projects: map<string, string>, p: Project, xs: seq<Insertion>, projects': map<string, string>)
    requires InsertsParts(p, xs) && ProjectsAfter(projects, xs, projects') && p.id !in projects
    ensures projects' == projects[p.id := p.name]
  {
    hide PartsOf, MakesProject;
    PartsMade(p, xs);
    assert Logs(xs[0].event, PartsOf(p)[0], p.id) && xs[0].content == ProjectContent(p.name);
  }

  lemma ProjectIsNew(s: Store, p: Project)
    requires Creatable(s, p)
    ensures p.id !in s.graph.projects
  {
    PartsAre(p);
    assert NewTo(s, PartsOf(p)[0]);
  }

  /** A project is created exactly when all its ids are new: of its parts no two share one, whatever their kinds, none
      has been logged or has a row, and no two of its criteria share one and none is there. It then writes exactly its
      parts, and the call is refused exactly when it cannot. */
  lemma CreatedIff(s: Store, p: Project, trim: string -> string)
    ensures Created(s, p).Some? <==> Creatable(s, p)
    ensures Created(s, p).Some? ==> Wrote(s, p, Created(s, p).value)
    ensures CreationFor(s, p, trim) == Refused <==> !Creatable(s, p)
  {
    hide InsertedAll, Free, Creatable, InsertsParts, Wrote, After, ProjectInsertions, ReadsBack, PartsOf;
    var xs := ProjectInsertions(p);
    PartsInserted(p);
    forall i | 0 <= i < |xs| ensures Creates(xs[i], p.id) {
      InsertsItsParts(p, xs, i);
    }
    FreeMeans(s, p, xs);
    AllInsertedIff(s, xs, p.id);
    if Created(s, p).Some? {
      ProjectIsNew(s, p);
      AfterMeans(s, p, xs, Created(s, p).value);
    }
  }
}
