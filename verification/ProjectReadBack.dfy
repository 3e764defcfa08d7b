/** Creating a project writes it and then reads it back: when what was written is returned, and when the
    caller gets an error although all of it stays. */
module ProjectReadBack {
  import opened Collections
  import opened WorkPackageProperties
  import opened WorkPackageStore

  // ---------------------------------------------------------------- how the tables grow

  /** Requirements belong to projects that are there, criteria to requirements that are there. */
  ghost predicate Referenced(g: Graph) {
    && (forall r :: r in g.requirements ==> g.requirements[r] in g.projects)
    && CriteriaReferenced(g)
  }

  ghost predicate CriteriaReferenced(g: Graph) {
    forall c :: c in g.criteria ==> g.criteria[c] in g.requirements
  }

  ghost predicate Keeps(m: map<string, string>, m': map<string, string>) {
    forall k :: k in m ==> k in m' && m'[k] == m[k]
  }

  /** Rows were only added: at most the project `id`, requirements of that project, and criteria of those. */
  ghost predicate Grown(g: Graph, g': Graph, id: string) {
    && Keeps(g.projects, g'.projects) && Keeps(g.requirements, g'.requirements) && Keeps(g.criteria, g'.criteria)
    && (forall p :: p in g'.projects && p !in g.projects ==> p == id)
    && (forall r :: r in g'.requirements && r !in g.requirements ==> g'.requirements[r] == id)
    && (forall c :: c in g'.criteria && c !in g.criteria ==>
          g'.criteria[c] !in g.requirements && g'.criteria[c] in g'.requirements)
  }

  lemma GrownTransitive(a: Graph, b: Graph, c: Graph, id: string)
    requires Grown(a, b, id) && Grown(b, c, id)
    ensures Grown(a, c, id)
  {
  }

  predicate OfProject(x: Insertion, id: string) {
    x.event.projectId == id && (x.content.ProjectContent? ==> x.event.aggregateId == id)
  }

  lemma AddedGrows(g: Graph, x: Insertion, id: string)
    requires Added(g, x).Some? && OfProject(x, id)
    ensures Grown(g, Added(g, x).value, id)
  {
    hide NoDuplicates;
  }

  lemma GraphOfInserted(s: Store, x: Insertion)
    requires Inserted(s, x).Some?
    ensures Added(s.graph, x) == Some(Inserted(s, x).value.graph)
  {
    hide Added, Taken;
  }

  lemma GrownNot(g: Graph, id: string)
    ensures Grown(g, g, id)
  {
  }

  lemma {:induction false} InsertedGrows(s: Store, xs: seq<Insertion>, id: string)
    requires InsertedAll(s, xs).Some? && forall x :: x in xs ==> OfProject(x, id)
    ensures Grown(s.graph, InsertedAll(s, xs).value.graph, id)
  {
    hide Inserted, Added, Grown, OfProject;
    if xs == [] {
      GrownNot(s.graph, id);
    } else {
      var front, last := xs[..|xs| - 1], xs[|xs| - 1];
      InsertedGrows(s, front, id);
      var s1 := InsertedAll(s, front).value;
      GraphOfInserted(s1, last);
      AddedGrows(s1.graph, last, id);
      GrownTransitive(s.graph, s1.graph, InsertedAll(s, xs).value.graph, id);
    }
  }

  // ---------------------------------------------------------------- what a transaction has written

  /** The insertion of this requirement is among them. */
  ghost predicate Requires(xs: seq<Insertion>, r: string) {
    exists x :: x in xs && x.content.RequirementContent? && x.event.aggregateId == r
  }

  lemma RequiresSnoc(xs: seq<Insertion>, x: Insertion, r: string)
    ensures Requires(xs + [x], r) <==> Requires(xs, r) || (x.content.RequirementContent? && x.event.aggregateId == r)
  {
    assert x in xs + [x];
    if y :| y in xs && y.content.RequirementContent? && y.event.aggregateId == r {
      assert y in xs + [x];
    }
  }

  ghost predicate WrittenRequirements(g: Graph, g': Graph, xs: seq<Insertion>) {
    forall r :: r in g'.requirements && r !in g.requirements <==> Requires(xs, r)
  }

  ghost predicate WrittenCriteria(g': Graph, xs: seq<Insertion>) {
    forall x :: x in xs && x.content.RequirementContent? ==>
      (HasCriterion(g', x.event.aggregateId) <==> x.content.criteria != [])
  }

  /** One insertion more. */
  lemma WrittenStep(g: Graph, g1: Graph, front: seq<Insertion>, last: Insertion, id: string)
    requires CriteriaReferenced(g1) && Added(g1, last).Some? && OfProject(last, id) && Grown(g, g1, id)
    requires WrittenRequirements(g, g1, front) && WrittenCriteria(g1, front)
    ensures var g' := Added(g1, last).value;
      CriteriaReferenced(g') && WrittenRequirements(g, g', front + [last]) && WrittenCriteria(g', front + [last])
  {
    hide NoDuplicates, HasCriterion, Requires;
    var g' := Added(g1, last).value;
    forall r ensures r in g'.requirements && r !in g.requirements <==> Requires(front + [last], r) {
      RequiresSnoc(front, last, r);
    }
    forall x | x in front + [last] && x.content.RequirementContent?
      ensures HasCriterion(g', x.event.aggregateId) <==> x.content.criteria != []
    {
      if x in front {
        assert Requires(front, x.event.aggregateId) by { RequiresIt(front, x); }
        OldRequirement(g1, last, x.event.aggregateId);
      } else {
        NewRequirement(g1, last);
      }
    }
  }

  lemma RequiresIt(xs: seq<Insertion>, x: Insertion)
    requires x in xs && x.content.RequirementContent?
    ensures Requires(xs, x.event.aggregateId)
  {
  }

  /** Criteria come with the requirement they are for. */
  lemma OldRequirement(g: Graph, x: Insertion, r: string)
    requires Added(g, x).Some? && r in g.requirements
    ensures HasCriterion(Added(g, x).value, r) <==> HasCriterion(g, r)
  {
    hide NoDuplicates;
    var g' := Added(g, x).value;
    if c :| c in g.criteria && g.criteria[c] == r {
      assert c in g'.criteria && g'.criteria[c] == r;
    }
    if c :| c in g'.criteria && g'.criteria[c] == r {
      assert c in g.criteria && g.criteria[c] == r;
    }
  }

  lemma NewRequirement(g: Graph, x: Insertion)
    requires Added(g, x).Some? && x.content.RequirementContent? && CriteriaReferenced(g)
    ensures HasCriterion(Added(g, x).value, x.event.aggregateId) <==> x.content.criteria != []
  {
    hide NoDuplicates;
    var g' := Added(g, x).value;
    if x.content.criteria != [] {
      var c := x.content.criteria[0];
      assert c in g'.criteria && g'.criteria[c] == x.event.aggregateId;
    }
  }

  /** What the insertions of a transaction leave of requirements and criteria. */
  lemma {:induction false} InsertedWrites(s: Store, xs: seq<Insertion>, id: string)
    requires CriteriaReferenced(s.graph) && InsertedAll(s, xs).Some? && forall x :: x in xs ==> OfProject(x, id)
    ensures var g' := InsertedAll(s, xs).value.graph;
      CriteriaReferenced(g') && WrittenRequirements(s.graph, g', xs) && WrittenCriteria(g', xs)
  {
    hide Inserted, Added, Grown, OfProject, CriteriaReferenced, WrittenRequirements, WrittenCriteria;
    if xs == [] {
      NothingWritten(s.graph);
    } else {
      var front, last := xs[..|xs| - 1], xs[|xs| - 1];
      assert xs == front + [last];
      InsertedWrites(s, front, id);
      InsertedGrows(s, front, id);
      var s1 := InsertedAll(s, front).value;
      GraphOfInserted(s1, last);
      WrittenStep(s.graph, s1.graph, front, last, id);
    }
  }

  lemma NothingWritten(g: Graph)
    ensures WrittenRequirements(g, g, []) && WrittenCriteria(g, [])
  {
  }

  // ---------------------------------------------------------------- a created project

  lemma ProjectIsItsOwn(p: Project)
    ensures forall x :: x in ProjectInsertions(p) ==> OfProject(x, p.id)
  {
    hide ProjectInsertions, Starts;
    forall x | x in ProjectInsertions(p) ensures OfProject(x, p.id) {
      ProjectOrigin(p, x);
    }
  }

  /** The project is new, and then there with its name. */
  lemma ProjectIsThere(s: Store, p: Project)
    requires Created(s, p).Some?
    ensures var g' := Created(s, p).value.graph;
      p.id !in s.graph.projects && p.id in g'.projects && g'.projects[p.id] == p.name
  {
    hide Inserted, InsertedAll, Added, Starts, Grown, OfProject;
    ProjectIsItsOwn(p);
    var first, rest := FirstInsertion(p), ProjectInsertions(p)[1..];
    FirstIsFirst(p);
    InsertedHead(s, first, rest);
    GraphOfInserted(s, first);
    FirstAdds(s.graph, p);
    InsertedGrows(Inserted(s, first).value, rest, p.id);
    KeptProject(Inserted(s, first).value.graph, Created(s, p).value.graph, p.id);
  }

  lemma FirstIsFirst(p: Project)
    ensures ProjectInsertions(p) == [FirstInsertion(p)] + ProjectInsertions(p)[1..]
    ensures forall x :: x in ProjectInsertions(p)[1..] ==> x in ProjectInsertions(p)
  {
    hide Flatten, Map, PlanInsertions, RequirementOf, FirstInsertion;
  }

  lemma FirstAdds(g: Graph, p: Project)
    requires Added(g, FirstInsertion(p)).Some?
    ensures p.id !in g.projects && p.id in Added(g, FirstInsertion(p)).value.projects
    ensures Added(g, FirstInsertion(p)).value.projects[p.id] == p.name
  {
  }

  lemma KeptProject(g: Graph, g': Graph, id: string)
    requires Grown(g, g', id) && id in g.projects
    ensures id in g'.projects && g'.projects[id] == g.projects[id]
  {
  }

  /** Every requirement has a criterion. */
  predicate Checkable(p: Project) {
    forall r :: r in p.requirements ==> r.criteria != []
  }

  /** Right after its transaction a project reads back exactly when it is valid. */
  lemma CreatedReadsBackIff(s: Store, p: Project, trim: string -> string)
    requires Referenced(s.graph) && Created(s, p).Some?
    ensures ReadsBack(Created(s, p).value.graph, p.id, trim) <==> trim(p.id) != "" && trim(p.name) != "" && Checkable(p)
    ensures Referenced(Created(s, p).value.graph) && Grown(s.graph, Created(s, p).value.graph, p.id)
  {
    hide InsertedAll, ProjectInsertions, HasCriterion, OfProject, Starts;
    var g, g', xs := s.graph, Created(s, p).value.graph, ProjectInsertions(p);
    ProjectIsItsOwn(p);
    ProjectIsThere(s, p);
    InsertedGrows(s, xs, p.id);
    InsertedWrites(s, xs, p.id);
    RequirementsRead(g, g', p);
  }

  /** The requirements of the project, read from the table and as they were given. */
  lemma RequirementsRead(g: Graph, g': Graph, p: Project)
    requires Referenced(g) && Grown(g, g', p.id) && p.id !in g.projects
    requires WrittenRequirements(g, g', ProjectInsertions(p)) && WrittenCriteria(g', ProjectInsertions(p))
    ensures (forall r :: r in g'.requirements && g'.requirements[r] == p.id ==> HasCriterion(g', r)) <==> Checkable(p)
  {
    hide ProjectInsertions, HasCriterion, Starts, Requires;
    var xs := ProjectInsertions(p);
    forall r | r in g'.requirements && g'.requirements[r] == p.id
      ensures exists q :: q in p.requirements && q.id == r && (HasCriterion(g', r) <==> q.criteria != [])
    {
      assert Requires(xs, r);
      var q := RequirementFor(p, r);
      RequirementIsInserted(p, q);
      assert RequirementOf(p.id)(q) in xs;
    }
    forall q | q in p.requirements
      ensures q.id in g'.requirements && g'.requirements[q.id] == p.id && (HasCriterion(g', q.id) <==> q.criteria != [])
    {
      RequirementIsInserted(p, q);
      RequiresIt(xs, RequirementOf(p.id)(q));
    }
  }

  lemma RequirementFor(p: Project, r: string) returns (q: Requirement)
    requires Requires(ProjectInsertions(p), r)
    ensures q in p.requirements && q.id == r
  {
    hide ProjectInsertions, Starts;
    var x :| x in ProjectInsertions(p) && x.content.RequirementContent? && x.event.aggregateId == r;
    ProjectOrigin(p, x);
    q :| q in p.requirements && x == RequirementOf(p.id)(q);
  }

  // ---------------------------------------------------------------- whatever happens in between

  /** Another project leaves what is read of this one alone. */
  lemma OthersLeaveIt(g: Graph, g': Graph, other: string, id: string, trim: string -> string)
    requires Grown(g, g', other) && id in g.projects && id != other
    ensures id in g'.projects && (ReadsBack(g', id, trim) <==> ReadsBack(g, id, trim))
  {
    hide HasCriterion;
    forall r | r in g.requirements ensures HasCriterion(g', r) <==> HasCriterion(g, r) {
      SameCriteria(g, g', other, r);
    }
    forall r | r in g'.requirements && g'.requirements[r] == id ensures r in g.requirements && g.requirements[r] == id {
    }
    forall r | r in g.requirements && g.requirements[r] == id ensures r in g'.requirements && g'.requirements[r] == id {
    }
  }

  lemma SameCriteria(g: Graph, g': Graph, other: string, r: string)
    requires Grown(g, g', other) && r in g.requirements
    ensures HasCriterion(g', r) <==> HasCriterion(g, r)
  {
    if c :| c in g.criteria && g.criteria[c] == r {
      assert c in g'.criteria && g'.criteria[c] == r;
    }
    if c :| c in g'.criteria && g'.criteria[c] == r {
      assert c in g.criteria;
    }
  }

  lemma StepLeavesIt(w: World, a: Action, id: string, trim: string -> string)
    requires Referenced(w.store.graph) && id in w.store.graph.projects
    ensures var g' := Step(w, a).store.graph;
      Referenced(g') && id in g'.projects && (ReadsBack(g', id, trim) <==> ReadsBack(w.store.graph, id, trim))
  {
    hide Referenced, ReadsBack, Created, Grown, Taken;
    if a.Create? && Created(w.store, a.project).Some? {
      CreatedReadsBackIff(w.store, a.project, trim);
      ProjectIsThere(w.store, a.project);
      OthersLeaveIt(w.store.graph, Created(w.store, a.project).value.graph, a.project.id, id, trim);
    }
  }

  lemma {:induction false} RunLeavesIt(w: World, actions: seq<Action>, id: string, trim: string -> string)
    requires Referenced(w.store.graph) && id in w.store.graph.projects
    ensures var g' := Run(w, actions).store.graph;
      Referenced(g') && id in g'.projects && (ReadsBack(g', id, trim) <==> ReadsBack(w.store.graph, id, trim))
    decreases |actions|
  {
    hide Referenced, ReadsBack, Step;
    if actions == [] {
    } else {
      StepLeavesIt(w, actions[0], id, trim);
      RunLeavesIt(Step(w, actions[0]), actions[1..], id, trim);
    }
  }

  lemma {:induction false} EveryRunIsReferenced(w: World, actions: seq<Action>)
    requires Referenced(w.store.graph)
    ensures Referenced(Run(w, actions).store.graph)
    decreases |actions|
  {
    hide Referenced, Created, Taken;
    if actions == [] {
    } else {
      var a := actions[0];
      if a.Create? && Created(w.store, a.project).Some? {
        CreatedReadsBackIff(w.store, a.project, (text: string) => text);
      }
      EveryRunIsReferenced(Step(w, a), actions[1..]);
    }
  }

  /** Whatever happened before and whatever others do between the transaction and the reading back: creating a
      project whose transaction goes through throws exactly when the project's id or name is blank or a
      requirement has no acceptance criterion, and what it wrote stays either way. */
  lemma CreatingThrowsIff(before: seq<Action>, p: Project, between: seq<Action>, trim: string -> string)
    requires Created(Run(EMPTY, before).store, p).Some?
    ensures var w := Step(Run(EMPTY, before), Create(p));
      var later := Run(w, between).store.graph;
      && (ReadsBack(later, p.id, trim) <==> trim(p.id) != "" && trim(p.name) != "" && Checkable(p))
      && p.id in later.projects && Created(Run(EMPTY, before).store, p).value.log <= Run(w, between).store.log
      && CreationFor(Run(EMPTY, before).store, p, trim)
         == if trim(p.id) != "" && trim(p.name) != "" && Checkable(p) then Returned else Thrown
  {
    hide Run, Referenced, ReadsBack, Created, Checkable, Sound;
    EmptyIsSound();
    EveryRunIsSound(EMPTY, before);
    StepIsSound(Run(EMPTY, before), Create(p));
    EveryRunIsSound(Step(Run(EMPTY, before), Create(p)), between);
    NothingReferenced();
    EveryRunIsReferenced(EMPTY, before);
    var start := Run(EMPTY, before);
    CreatedReadsBackIff(start.store, p, trim);
    ProjectIsThere(start.store, p);
    RunLeavesIt(Step(start, Create(p)), between, p.id, trim);
  }

  lemma NothingReferenced()
    ensures Referenced(EMPTY.store.graph)
  {
  }

  // ---------------------------------------------------------------- written and thrown

  /** A project whose one requirement has no acceptance criterion. */
  const UNCHECKABLE := Project("P1", "Project one", [Requirement("REQ-1", [])], [])

  lemma TwoIds()
    ensures "EVT-" + "P1" + "-CREATED" == "EVT-P1-CREATED" && "EVT-" + "REQ-1" + "-CREATED" == "EVT-REQ-1-CREATED"
    ensures "EVT-P1-CREATED" != "EVT-REQ-1-CREATED"
  {
    assert |"EVT-P1-CREATED"| == 14 && |"EVT-REQ-1-CREATED"| == 17;
  }

  /** Whatever counts as blank: creating it writes the project and its requirement, and throws. */
  lemma UncheckableProjectThrows(trim: string -> string)
    ensures CreationFor(EMPTY.store, UNCHECKABLE, trim) == Thrown
    ensures var g := Step(EMPTY, Create(UNCHECKABLE)).store.graph;
      g.projects == map["P1" := "Project one"] && g.requirements == map["REQ-1" := "P1"]
  {
    hide InsertedAll, ProjectInsertions;
    var first := Event("EVT-P1-CREATED", "P1", Other("project"), "P1", 1, Creation);
    var second := Event("EVT-REQ-1-CREATED", "P1", Other("requirement"), "REQ-1", 1, Creation);
    UncheckableInsertions();
    TwoIds();
    var x, y := Insertion(first, ProjectContent("Project one")), Insertion(second, RequirementContent([]));
    var s1 := Store(Graph(map["P1" := "Project one"], map[], map[]), map[], [first]);
    var s2 := Store(Graph(map["P1" := "Project one"], map["REQ-1" := "P1"], map[]), map[], [first, second]);
    assert [] + [first] == [first] && [first] + [second] == [first, second];
    assert Inserted(EMPTY.store, x) == Some(s1);
    assert Inserted(s1, y) == Some(s2);
    InsertedHead(EMPTY.store, x, [y]);
    InsertedHead(s1, y, []);
    NothingIsInserted(s2);
    assert [x] + [y] == [x, y] && [y] + [] == [y];
    assert !HasCriterion(s2.graph, "REQ-1");
  }

  lemma UncheckableInsertions()
    ensures ProjectInsertions(UNCHECKABLE)
         == [Insertion(Event("EVT-P1-CREATED", "P1", Other("project"), "P1", 1, Creation),
                       ProjectContent("Project one")),
             Insertion(Event("EVT-REQ-1-CREATED", "P1", Other("requirement"), "REQ-1", 1, Creation),
                       RequirementContent([]))]
  {
    TwoIds();
    assert Map(PlanInsertions("P1"), UNCHECKABLE.plans) == [];
    assert Map(RequirementOf("P1"), UNCHECKABLE.requirements) == [RequirementOf("P1")(Requirement("REQ-1", []))];
  }
}
