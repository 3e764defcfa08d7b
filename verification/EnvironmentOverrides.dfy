/** Environment variables as configuration overrides: each variable with the prefix names a path into a
    nested object and gives the value at its end. */
module EnvironmentOverrides {
  import opened Orders
  import opened Collections
  import opened Text
  import opened Json

  datatype OverrideError = InvalidName(name: string) | ConflictingName(name: string)

  type Assignment = (seq<string>, Json)

  /** The path a variable name spells after the prefix. */
  function PathOf(name: string, prefix: string): seq<string>
    requires prefix <= name
  {
    Map((part: string) => Lower(part), Filter(Split(name[|prefix|..]), (part: string) => part != ""))
  }

  /** Follows the path, creating objects where there is nothing yet, and sets the value at its end; `None`
      when something on the way is not an object. */
  function Insert(o: Object, path: seq<string>, v: Json): Option<Object>
    requires path != []
    decreases |path|
  {
    if |path| == 1 then Some(o[path[0] := v])
    else
      var existing := if path[0] in o then o[path[0]] else JObj(map[]);
      if !existing.JObj? then None
      else
        match Insert(existing.fields, path[1..], v)
        case None => None
        case Some(child) => Some(o[path[0] := JObj(child)])
  }

  /** The overrides of the listed variables, in that order, onto what is there already. */
  function Override(
    names: seq<string>, environment: map<string, string>, prefix: string, parse: string -> Json, o: Object):
    Result<Object, OverrideError>
    requires forall name :: name in names ==> name in environment
    decreases |names|
  {
    if names == [] then Success(o)
    else
      var name := names[0];
      if !(prefix <= name) then Override(names[1..], environment, prefix, parse, o)
      else
        var path := PathOf(name, prefix);
        if path == [] then Failure(InvalidName(name))
        else
          match Insert(o, path, parse(environment[name]))
          case None => Failure(ConflictingName(name))
          case Some(o') => Override(names[1..], environment, prefix, parse, o')
  }

  /** The names in sorted order. `parse` reads a value as JSON, or as plain text if it is none. */
  function Overrides(environment: map<string, string>, prefix: string, parse: string -> Json):
    Result<Object, OverrideError>
  {
    SortedSetFacts(environment.Keys);
    Override(SortedSet(environment.Keys), environment, prefix, parse, map[])
  }

  // ---------------------------------------------------------------- reading the result

  /** What there is at a path: nothing, an object, or a value that is no object. */
  datatype Kind = Absent | Node | Leaf(value: Json)

  function KindOf(x: Option<Json>): Kind {
    match x
    case None => Absent
    case Some(v) => if v.JObj? then Node else Leaf(v)
  }

  ghost predicate ProperPrefix(a: seq<string>, b: seq<string>) {
    a < b
  }

  /** What a value has at a path of its own; the empty path is the value itself. */
  function Below(v: Json, rest: seq<string>): Kind {
    if v.JObj? then KindOf(Lookup(v.fields, rest))
    else if rest == [] then Leaf(v)
    else Absent
  }

  /** One insertion decides what is at its path and below it, makes an object of everything above it, and
      leaves everything else alone. */
  lemma {:induction false} InsertMeans(o: Object, path: seq<string>, v: Json, q: seq<string>)
    requires path != [] && q != [] && Insert(o, path, v).Some?
    ensures KindOf(Lookup(Insert(o, path, v).value, q)) ==
      if path <= q then Below(v, q[|path|..])
      else if ProperPrefix(q, path) then Node
      else KindOf(Lookup(o, q))
    decreases |path|
  {
    var o' := Insert(o, path, v).value;
    if q[0] != path[0] {
    } else if |path| == 1 {
      assert q == path + q[1..];
    } else {
      assert path == [path[0]] + path[1..] && q == [q[0]] + q[1..];
      var existing := if path[0] in o then o[path[0]] else JObj(map[]);
      if |q| > 1 {
        InsertMeans(existing.fields, path[1..], v, q[1..]);
        assert path <= q <==> path[1..] <= q[1..];
        assert path <= q ==> q[|path|..] == q[1..][|path[1..]|..];
        assert ProperPrefix(q, path) <==> ProperPrefix(q[1..], path[1..]);
      }
    }
  }

  /** An insertion is refused exactly when something above its path is there and is no object. */
  lemma {:induction false} InsertFailsIff(o: Object, path: seq<string>, v: Json)
    requires path != []
    ensures Insert(o, path, v).None? <==> exists n :: 0 < n < |path| && KindOf(Lookup(o, path[..n])).Leaf?
    decreases |path|
  {
    if |path| > 1 {
      assert path[..1] == [path[0]];
      var existing := if path[0] in o then o[path[0]] else JObj(map[]);
      if existing.JObj? {
        var rest := path[1..];
        InsertFailsIff(existing.fields, rest, v);
        forall n | 0 < n < |rest| ensures
          KindOf(Lookup(existing.fields, rest[..n])).Leaf? <==> KindOf(Lookup(o, path[..n + 1])).Leaf?
        {
          assert path[..n + 1][1..] == rest[..n] && path[..n + 1][0] == path[0];
        }
        if n :| 0 < n < |path| && KindOf(Lookup(o, path[..n])).Leaf? {
          assert n > 1;
          assert rest[..n - 1] == path[..n][1..];
        }
        if n :| 0 < n < |rest| && KindOf(Lookup(existing.fields, rest[..n])).Leaf? {
          assert KindOf(Lookup(o, path[..n + 1])).Leaf?;
        }
      } else {
        assert KindOf(Lookup(o, path[..1])).Leaf?;
      }
    }
  }

  // ---------------------------------------------------------------- lists of assignments

  ghost predicate AllNamed(xs: seq<Assignment>) {
    forall x :: x in xs ==> x.0 != []
  }

  function InsertAll(o: Object, xs: seq<Assignment>): Option<Object>
    requires AllNamed(xs)
  {
    if xs == [] then Some(o)
    else
      var front, last := xs[..|xs| - 1], xs[|xs| - 1];
      match InsertAll(o, front)
      case None => None
      case Some(o') => Insert(o', last.0, last.1)
  }

  /** What the last writer left at a path. */
  function KindAfter(xs: seq<Assignment>, q: seq<string>): Kind {
    if xs == [] then Absent
    else
      var last := xs[|xs| - 1];
      if last.0 <= q then Below(last.1, q[|last.0|..])
      else if q < last.0 then Node
      else KindAfter(xs[..|xs| - 1], q)
  }

  /** The assignments leave something that is no object properly above `path`. */
  ghost predicate LeafAbove(xs: seq<Assignment>, path: seq<string>) {
    exists n :: 0 < n < |path| && KindAfter(xs, path[..n]).Leaf?
  }

  /** Some assignment meets something above its path that is no object, left by those before it. */
  ghost predicate Blocked(xs: seq<Assignment>) {
    exists j :: 0 <= j < |xs| && LeafAbove(xs[..j], xs[j].0)
  }

  lemma BlockedStep(front: seq<Assignment>, last: Assignment)
    ensures Blocked(front + [last]) <==> Blocked(front) || LeafAbove(front, last.0)
  {
    hide LeafAbove;
    var xs := front + [last];
    forall j | 0 <= j < |front| ensures xs[..j] == front[..j] && xs[j] == front[j] {
    }
    assert xs[..|front|] == front && xs[|front|] == last;
    if Blocked(front) {
      var j :| 0 <= j < |front| && LeafAbove(front[..j], front[j].0);
      assert LeafAbove(xs[..j], xs[j].0);
    }
    if Blocked(xs) {
      var j :| 0 <= j < |xs| && LeafAbove(xs[..j], xs[j].0);
      if j < |front| {
        assert LeafAbove(front[..j], front[j].0);
      }
    }
  }

  lemma NothingBlocked()
    ensures !Blocked([])
  {
  }

  /** A list of assignments is refused exactly when one of them is blocked; otherwise the last writer
      decides what is at every path. */
  lemma {:induction false} InsertAllMeans(xs: seq<Assignment>)
    requires AllNamed(xs)
    ensures InsertAll(map[], xs).None? <==> Blocked(xs)
    ensures InsertAll(map[], xs).Some? ==>
      forall q: seq<string> :: q != [] ==> KindOf(Lookup(InsertAll(map[], xs).value, q)) == KindAfter(xs, q)
  {
    hide Insert, Lookup, Blocked, LeafAbove, KindOf, Below;
    if xs == [] {
      NothingBlocked();
      forall q: seq<string> | q != [] ensures KindOf(Lookup(map[], q)) == Absent {
        EmptyLookup(q);
      }
    } else {
      var front, last := xs[..|xs| - 1], xs[|xs| - 1];
      assert xs == front + [last] && last in xs;
      InsertAllMeans(front);
      BlockedStep(front, last);
      if InsertAll(map[], front).Some? {
        var o := InsertAll(map[], front).value;
        RefusedIffLeafAbove(o, front, last);
        if Insert(o, last.0, last.1).Some? {
          forall q: seq<string> | q != []
            ensures KindOf(Lookup(InsertAll(map[], xs).value, q)) == KindAfter(xs, q)
          {
            InsertMeans(o, last.0, last.1, q);
          }
        }
      }
    }
  }

  lemma RefusedIffLeafAbove(o: Object, front: seq<Assignment>, last: Assignment)
    requires last.0 != []
    requires forall q: seq<string> :: q != [] ==> KindOf(Lookup(o, q)) == KindAfter(front, q)
    ensures Insert(o, last.0, last.1).None? <==> LeafAbove(front, last.0)
  {
    hide Insert, Lookup, KindOf, KindAfter;
    InsertFailsIff(o, last.0, last.1);
  }

  lemma EmptyLookup(q: seq<string>)
    requires q != []
    ensures KindOf(Lookup(map[], q)) == Absent
  {
  }

  // ---------------------------------------------------------------- values that are no objects

  /** Paths are not empty, and no value is an object. */
  ghost predicate Plain(xs: seq<Assignment>) {
    forall x :: x in xs ==> x.0 != [] && !x.1.JObj?
  }

  /** An earlier path lies above a later one. */
  ghost predicate PrefixComesFirst(xs: seq<Assignment>) {
    exists i, j :: 0 <= i < j < |xs| && xs[i].0 < xs[j].0
  }

  /** Some assignment lies properly above `path`. */
  ghost predicate LiesAbove(xs: seq<Assignment>, path: seq<string>) {
    exists i :: 0 <= i < |xs| && xs[i].0 < path
  }

  lemma PlainAppend(front: seq<Assignment>, last: Assignment)
    requires Plain(front + [last])
    ensures Plain(front) && last.0 != [] && !last.1.JObj?
  {
    assert last in front + [last];
    forall x | x in front ensures x in front + [last] {
    }
  }

  /** Among such values the last writer of a path is the one who wrote it. */
  lemma ScalarStep(front: seq<Assignment>, last: Assignment, q: seq<string>)
    requires !last.1.JObj?
    ensures KindAfter(front + [last], q) ==
      if q == last.0 then Leaf(last.1)
      else if last.0 < q then Absent
      else if q < last.0 then Node
      else KindAfter(front, q)
  {
    assert (front + [last])[..|front|] == front;
    assert last.0 <= q ==> (q[|last.0|..] == [] <==> q == last.0);
  }

  lemma {:induction false} LeafIsAssigned(xs: seq<Assignment>, q: seq<string>)
    requires Plain(xs) && KindAfter(xs, q).Leaf?
    ensures exists i :: 0 <= i < |xs| && xs[i].0 == q
  {
    hide Plain;
    var n := |xs| - 1;
    assert xs == xs[..n] + [xs[n]];
    PlainAppend(xs[..n], xs[n]);
    ScalarStep(xs[..n], xs[n], q);
    if q != xs[n].0 {
      LeafIsAssigned(xs[..n], q);
      var i :| 0 <= i < n && xs[..n][i].0 == q;
      assert xs[i].0 == q;
    }
  }

  /** As long as no path lies above a later one, something above `path` is no object exactly when some
      assignment lies above it. */
  lemma LeafAboveIff(xs: seq<Assignment>, path: seq<string>)
    requires !PrefixComesFirst(xs) && Plain(xs)
    ensures LeafAbove(xs, path) <==> LiesAbove(xs, path)
  {
    hide PrefixComesFirst, Plain, KindAfter;
    if LeafAbove(xs, path) {
      var n :| 0 < n < |path| && KindAfter(xs, path[..n]).Leaf?;
      LeafIsAssigned(xs, path[..n]);
      var i :| 0 <= i < |xs| && xs[i].0 == path[..n];
      assert xs[i].0 < path;
    }
    if LiesAbove(xs, path) {
      LastAbove(xs, path);
    }
  }

  lemma {:induction false} LastAbove(xs: seq<Assignment>, path: seq<string>)
    requires !PrefixComesFirst(xs) && Plain(xs) && LiesAbove(xs, path)
    ensures LeafAbove(xs, path)
  {
    hide PrefixComesFirst, Plain, KindAfter, LiesAbove, LeafAbove;
    var m := |xs| - 1;
    SomethingLies(xs, path);
    var front, last := xs[..m], xs[m];
    assert xs == front + [last];
    PlainAppend(front, last);
    if last.0 < path {
      LastIsAbove(front, last, path);
    } else {
      LiesInFront(front, last, path);
      PrefixStep(front, last);
      LastAbove(front, path);
      EarlierStays(front, last, path);
    }
  }

  lemma SomethingLies(xs: seq<Assignment>, path: seq<string>)
    requires LiesAbove(xs, path)
    ensures xs != []
  {
  }

  lemma LiesInFront(front: seq<Assignment>, last: Assignment, path: seq<string>)
    requires LiesAbove(front + [last], path) && !(last.0 < path)
    ensures LiesAbove(front, path)
  {
    var i :| 0 <= i < |front + [last]| && (front + [last])[i].0 < path;
    assert front[i].0 < path;
  }

  lemma LastIsAbove(front: seq<Assignment>, last: Assignment, path: seq<string>)
    requires last.0 != [] && !last.1.JObj? && last.0 < path
    ensures LeafAbove(front + [last], path)
  {
    hide KindAfter;
    assert path[..|last.0|] == last.0;
    ScalarStep(front, last, path[..|last.0|]);
    assert KindAfter(front + [last], path[..|last.0|]).Leaf?;
  }

  /** A value above `path` stays when the next path neither lies above `path` nor below that value. */
  lemma EarlierStays(front: seq<Assignment>, last: Assignment, path: seq<string>)
    requires !PrefixComesFirst(front + [last]) && Plain(front) && !last.1.JObj?
    requires LeafAbove(front, path) && !(last.0 < path)
    ensures LeafAbove(front + [last], path)
  {
    hide KindAfter, Plain, PrefixComesFirst;
    var n :| 0 < n < |path| && KindAfter(front, path[..n]).Leaf?;
    LeafIsAssigned(front, path[..n]);
    var k :| 0 <= k < |front| && front[k].0 == path[..n];
    NotAbove(front, last, k);
    ScalarStep(front, last, path[..n]);
    assert last.0 <= path[..n] ==> last.0 < path;
    assert KindAfter(front + [last], path[..n]).Leaf?;
  }

  lemma NotAbove(front: seq<Assignment>, last: Assignment, k: nat)
    requires !PrefixComesFirst(front + [last]) && k < |front|
    ensures !(front[k].0 < last.0)
  {
    assert (front + [last])[k] == front[k] && (front + [last])[|front|] == last;
  }

  lemma PrefixStep(front: seq<Assignment>, last: Assignment)
    ensures PrefixComesFirst(front + [last]) <==> PrefixComesFirst(front) || LiesAbove(front, last.0)
  {
    hide PrefixComesFirst, LiesAbove;
    if PrefixComesFirst(front) || LiesAbove(front, last.0) { PrefixInFront(front, last); }
    if PrefixComesFirst(front + [last]) { PrefixAtEnd(front, last); }
  }

  lemma PrefixInFront(front: seq<Assignment>, last: Assignment)
    requires PrefixComesFirst(front) || LiesAbove(front, last.0)
    ensures PrefixComesFirst(front + [last])
  {
    var xs := front + [last];
    if PrefixComesFirst(front) {
      var i, j :| 0 <= i < j < |front| && front[i].0 < front[j].0;
      assert xs[i].0 < xs[j].0;
    } else {
      var i :| 0 <= i < |front| && front[i].0 < last.0;
      assert xs[i].0 < xs[|front|].0;
    }
  }

  lemma PrefixAtEnd(front: seq<Assignment>, last: Assignment)
    requires PrefixComesFirst(front + [last])
    ensures PrefixComesFirst(front) || LiesAbove(front, last.0)
  {
    var xs := front + [last];
    var i, j :| 0 <= i < j < |xs| && xs[i].0 < xs[j].0;
    assert xs[i] == front[i];
    if j < |front| {
      assert front[i].0 < front[j].0;
    }
  }

  /** Without objects among the values, an assignment is blocked exactly when an earlier path lies above a
      later one. */
  lemma {:induction false} ScalarsAreBlockedIff(xs: seq<Assignment>)
    requires Plain(xs)
    ensures Blocked(xs) <==> PrefixComesFirst(xs)
  {
    hide Plain, Blocked, PrefixComesFirst, LiesAbove, LeafAbove;
    if xs == [] {
      NothingBlocked();
      NothingComesFirst();
    } else {
      var front, last := xs[..|xs| - 1], xs[|xs| - 1];
      assert xs == front + [last];
      PlainAppend(front, last);
      ScalarsAreBlockedIff(front);
      BlockedStep(front, last);
      PrefixStep(front, last);
      if !PrefixComesFirst(front) {
        LeafAboveIff(front, last.0);
      }
    }
  }

  lemma NothingComesFirst()
    ensures !PrefixComesFirst([])
  {
  }

  // ---------------------------------------------------------------- whole environments

  function HasPrefix(prefix: string): string -> bool {
    (name: string) => prefix <= name
  }

  function AssignmentOf(environment: map<string, string>, prefix: string, parse: string -> Json): string -> Assignment {
    (name: string) =>
      if prefix <= name && name in environment then (PathOf(name, prefix), parse(environment[name])) else ([], JNull)
  }

  /** The assignments of the listed variables that carry the prefix. */
  function Assignments(names: seq<string>, environment: map<string, string>, prefix: string, parse: string -> Json):
    seq<Assignment>
  {
    Map(AssignmentOf(environment, prefix, parse), Filter(names, HasPrefix(prefix)))
  }

  lemma {:induction false} InsertAllHead(o: Object, x: Assignment, xs: seq<Assignment>)
    requires x.0 != [] && AllNamed(xs) && AllNamed([x] + xs)
    ensures InsertAll(o, [x] + xs) ==
      match Insert(o, x.0, x.1)
      case None => None
      case Some(o') => InsertAll(o', xs)
  {
    hide Insert;
    var all := [x] + xs;
    if xs == [] {
      assert all[..0] == [];
    } else {
      var n := |xs| - 1;
      assert all[..|all| - 1] == [x] + xs[..n] && all[|all| - 1] == xs[n];
      InsertAllHead(o, x, xs[..n]);
    }
  }

  lemma AllNamedHead(x: Assignment, xs: seq<Assignment>)
    ensures AllNamed([x] + xs) <==> x.0 != [] && AllNamed(xs)
  {
    assert x in [x] + xs;
    forall y | y in xs ensures y in [x] + xs {
    }
  }

  lemma AssignmentsHead(names: seq<string>, environment: map<string, string>, prefix: string, parse: string -> Json)
    requires names != [] && names[0] in environment
    ensures Assignments(names, environment, prefix, parse)
         == (if prefix <= names[0] then [(PathOf(names[0], prefix), parse(environment[names[0]]))] else [])
            + Assignments(names[1..], environment, prefix, parse)
  {
    hide PathOf;
  }

  lemma {:induction false} OverrideIsInsertAll(
    names: seq<string>, environment: map<string, string>, prefix: string, parse: string -> Json, o: Object)
    requires forall name :: name in names ==> name in environment
    ensures var xs := Assignments(names, environment, prefix, parse);
      var r := Override(names, environment, prefix, parse, o);
      if AllNamed(xs) then
        (r.Success? <==> InsertAll(o, xs).Some?) && (r.Success? ==> InsertAll(o, xs) == Some(r.value))
      else r.Failure?
    decreases |names|
  {
    hide PathOf, Insert, InsertAll, Assignments, AllNamed;
    if names == [] {
      NothingInserted(o);
      NothingAssigned(environment, prefix, parse);
    } else {
      AssignmentsHead(names, environment, prefix, parse);
      var rest := Assignments(names[1..], environment, prefix, parse);
      assert [] + rest == rest;
      if prefix <= names[0] {
        var x := (PathOf(names[0], prefix), parse(environment[names[0]]));
        AllNamedHead(x, rest);
        if x.0 != [] {
          if Insert(o, x.0, x.1).Some? {
            OverrideIsInsertAll(names[1..], environment, prefix, parse, Insert(o, x.0, x.1).value);
          }
          if AllNamed(rest) {
            NamedHead(o, x, rest);
          }
        }
      } else {
        OverrideIsInsertAll(names[1..], environment, prefix, parse, o);
      }
    }
  }

  lemma NamedHead(o: Object, x: Assignment, xs: seq<Assignment>)
    requires x.0 != [] && AllNamed(xs) && AllNamed([x] + xs)
    ensures InsertAll(o, [x] + xs) ==
      match Insert(o, x.0, x.1)
      case None => None
      case Some(o') => InsertAll(o', xs)
  {
    hide Insert, InsertAll;
    InsertAllHead(o, x, xs);
  }

  lemma NothingAssigned(environment: map<string, string>, prefix: string, parse: string -> Json)
    ensures Assignments([], environment, prefix, parse) == [] && AllNamed([])
  {
  }

  lemma NothingInserted(o: Object)
    ensures InsertAll(o, []) == Some(o)
  {
  }

  ghost predicate ScalarValues(environment: map<string, string>, prefix: string, parse: string -> Json) {
    forall name :: name in environment && prefix <= name ==> !parse(environment[name]).JObj?
  }

  /** The overrides are refused exactly when a variable names no path, or something above its path was
      left as no object by the variables sorted before it; for values that are no objects that means that
      one of those paths lies above it. Otherwise the variable sorted last decides what is at every path. */
  lemma LastWriterDecides(environment: map<string, string>, prefix: string, parse: string -> Json)
    ensures var xs := Assignments(SortedSet(environment.Keys), environment, prefix, parse);
      var r := Overrides(environment, prefix, parse);
      && (r.Success? <==> AllNamed(xs) && !Blocked(xs))
      && (ScalarValues(environment, prefix, parse) && AllNamed(xs) ==> (Blocked(xs) <==> PrefixComesFirst(xs)))
      && (r.Success? ==> forall q: seq<string> :: q != [] ==> KindOf(Lookup(r.value, q)) == KindAfter(xs, q))
  {
    hide PathOf, Insert, InsertAll, Lookup, KindAfter, Override, PrefixComesFirst, Blocked, Assignments, SortedSet,
      AllNamed, StrictlyIncreasing, ScalarValues;
    var names := SortedSet(environment.Keys);
    SortedSetFacts(environment.Keys);
    var xs := Assignments(names, environment, prefix, parse);
    OverrideIsInsertAll(names, environment, prefix, parse, map[]);
    if AllNamed(xs) {
      InsertAllMeans(xs);
      if ScalarValues(environment, prefix, parse) {
        ScalarAssignments(names, environment, prefix, parse);
        ScalarsAreBlockedIff(xs);
      }
    }
  }

  lemma ScalarAssignments(names: seq<string>, environment: map<string, string>, prefix: string, parse: string -> Json)
    requires ScalarValues(environment, prefix, parse) && AllNamed(Assignments(names, environment, prefix, parse))
    ensures Plain(Assignments(names, environment, prefix, parse))
  {
    hide PathOf;
    var kept, xs := Filter(names, HasPrefix(prefix)), Assignments(names, environment, prefix, parse);
    forall x | x in xs ensures x.0 != [] && !x.1.JObj? {
      var i :| 0 <= i < |xs| && xs[i] == x;
      assert kept[i] in kept;
    }
  }

  // ---------------------------------------------------------------- which values stay

  /** The last assignment that spells a path or one above it. */
  function Deciding(xs: seq<Assignment>, q: seq<string>): (r: Option<nat>)
    ensures r.Some? ==> r.value < |xs| && xs[r.value].0 <= q
    ensures r.Some? ==> forall j :: r.value < j < |xs| ==> !(xs[j].0 <= q)
    ensures r.None? ==> forall j :: 0 <= j < |xs| ==> !(xs[j].0 <= q)
  {
    if xs == [] then None
    else if xs[|xs| - 1].0 <= q then Some(|xs| - 1)
    else Deciding(xs[..|xs| - 1], q)
  }

  /** The deciding assignment has this value at the path. */
  ghost predicate Gives(xs: seq<Assignment>, q: seq<string>, v: Json) {
    var m := Deciding(xs, q);
    m.Some? && Below(xs[m.value].1, q[|xs[m.value].0|..]) == Leaf(v)
  }

  /** In a list that is not refused a path holds a value exactly when the deciding assignment gives it: nothing
      written later goes through a value. */
  lemma {:induction false} LeafIffGiven(xs: seq<Assignment>, q: seq<string>, v: Json)
    requires !Blocked(xs) && q != []
    ensures KindAfter(xs, q) == Leaf(v) <==> Gives(xs, q, v)
  {
    hide Below, Blocked, LeafAbove;
    if xs == [] {
    } else {
      var front, last := xs[..|xs| - 1], xs[|xs| - 1];
      assert xs == front + [last];
      BlockedStep(front, last);
      if !(last.0 <= q) {
        LeafIffGiven(front, q, v);
        assert Gives(xs, q, v) <==> Gives(front, q, v);
        if q < last.0 && KindAfter(front, q).Leaf? {
          LeafLiesAbove(front, last.0, q);
        }
      }
    }
  }

  lemma LeafLiesAbove(xs: seq<Assignment>, path: seq<string>, q: seq<string>)
    requires q != [] && q < path && KindAfter(xs, q).Leaf?
    ensures LeafAbove(xs, path)
  {
    hide KindAfter;
    assert path[..|q|] == q;
  }

  ghost predicate StaysThere(o: Object, x: Assignment) {
    Lookup(o, x.0) == Some(x.1)
  }

  /** When the overrides succeed, a variable's value that is no object is at the variable's path exactly when
      the last variable that spells that path or one above it gives that value there; so in particular when
      no variable sorted later does. Among values that are no objects, that last one has to spell the very
      path and have the very value. */
  lemma VariableStaysIff(environment: map<string, string>, prefix: string, parse: string -> Json, i: nat)
    requires Overrides(environment, prefix, parse).Success?
    requires var xs := Assignments(SortedSet(environment.Keys), environment, prefix, parse);
      i < |xs| && !xs[i].1.JObj?
    ensures var xs := Assignments(SortedSet(environment.Keys), environment, prefix, parse);
      var o := Overrides(environment, prefix, parse).value;
      && (StaysThere(o, xs[i]) <==> Gives(xs, xs[i].0, xs[i].1))
      && ((forall j :: i < j < |xs| ==> !(xs[j].0 <= xs[i].0)) ==> StaysThere(o, xs[i]))
      && (ScalarValues(environment, prefix, parse) ==>
            (StaysThere(o, xs[i]) <==>
               exists m :: i <= m < |xs| && xs[m] == xs[i] && forall j :: m < j < |xs| ==> !(xs[j].0 <= xs[i].0)))
  {
    hide PathOf, Lookup, KindAfter, Overrides, PrefixComesFirst, Blocked, Assignments, SortedSet, ScalarValues;
    var xs := Assignments(SortedSet(environment.Keys), environment, prefix, parse);
    var o := Overrides(environment, prefix, parse).value;
    LastWriterDecides(environment, prefix, parse);
    assert xs[i] in xs;
    LeafIffGiven(xs, xs[i].0, xs[i].1);
    StaysIffLeaf(o, xs[i]);
    GivenByItself(xs, i);
    if ScalarValues(environment, prefix, parse) {
      ScalarAssignments(SortedSet(environment.Keys), environment, prefix, parse);
      GivenAmongScalars(xs, i);
    }
  }

  lemma StaysIffLeaf(o: Object, x: Assignment)
    requires !x.1.JObj?
    ensures StaysThere(o, x) <==> KindOf(Lookup(o, x.0)) == Leaf(x.1)
  {
    hide Lookup;
  }

  /** An assignment gives its own value as long as none after it decides. */
  lemma GivenByItself(xs: seq<Assignment>, i: nat)
    requires i < |xs| && !xs[i].1.JObj?
    ensures (forall j :: i < j < |xs| ==> !(xs[j].0 <= xs[i].0)) ==> Gives(xs, xs[i].0, xs[i].1)
  {
    var m := Deciding(xs, xs[i].0);
    if forall j :: i < j < |xs| ==> !(xs[j].0 <= xs[i].0) {
      assert m == Some(i);
    }
  }

  lemma GivenAmongScalars(xs: seq<Assignment>, i: nat)
    requires i < |xs| && Plain(xs)
    ensures Gives(xs, xs[i].0, xs[i].1) <==>
      exists m :: i <= m < |xs| && xs[m] == xs[i] && forall j :: m < j < |xs| ==> !(xs[j].0 <= xs[i].0)
  {
    var q, v := xs[i].0, xs[i].1;
    var d := Deciding(xs, q);
    assert xs[i].0 <= q;
    assert d.Some? && i <= d.value;
    assert xs[d.value] in xs;
    assert q[|xs[d.value].0|..] == [] <==> xs[d.value].0 == q;
    if m :| i <= m < |xs| && xs[m] == xs[i] && forall j :: m < j < |xs| ==> !(xs[j].0 <= xs[i].0) {
      assert m == d.value;
    }
  }

  // ---------------------------------------------------------------- upper-case names

  /** The name without the prefix is in upper case and has no empty part. */
  ghost predicate PlainName(name: string, prefix: string)
    requires prefix <= name
  {
    NoLowerCase(name[|prefix|..]) && "" !in Split(name[|prefix|..])
  }

  ghost predicate PlainNames(environment: map<string, string>, prefix: string) {
    forall name :: name in environment && prefix <= name ==> PlainName(name, prefix)
  }

  lemma {:induction false} PartsHaveNoLowerCase(s: string)
    requires NoLowerCase(s)
    ensures forall part :: part in Split(s) ==> NoLowerCase(part)
  {
    if s == [] {
    } else if StartsWithSeparator(s) {
      PartsHaveNoLowerCase(s[2..]);
    } else {
      PartsHaveNoLowerCase(s[1..]);
      var rest := Split(s[1..]);
      assert rest[0] in rest && s[0] in s;
    }
  }

  /** A plain name's path is its parts in lower case, and the parts say the name. */
  lemma PlainPath(name: string, prefix: string)
    requires prefix <= name && PlainName(name, prefix)
    ensures var parts := Split(name[|prefix|..]);
      && PathOf(name, prefix) == Map((part: string) => Lower(part), parts)
      && Join(parts) == name[|prefix|..] && PathOf(name, prefix) != []
      && forall part :: part in parts ==> NoLowerCase(part)
  {
    hide Lower, Split, Join, Map, NoLowerCase;
    var parts := Split(name[|prefix|..]);
    FilterAll(parts, (part: string) => part != "");
    JoinUndoesSplit(name[|prefix|..]);
    PartsHaveNoLowerCase(name[|prefix|..]);
  }

  /** Among plain names, a path above or equal to another belongs to a name that is a prefix of the
      other's; so a proper one is sorted first. */
  lemma PathsFollowNames(m: string, n: string, prefix: string)
    requires prefix <= m && prefix <= n && PlainName(m, prefix) && PlainName(n, prefix)
    requires PathOf(m, prefix) <= PathOf(n, prefix)
    ensures m <= n && (PathOf(m, prefix) == PathOf(n, prefix) <==> m == n)
    ensures m < n ==> StrLeq(m, n) && !StrLeq(n, m)
  {
    hide PathOf, Lower, Split, Join, Map, PlainName, NoLowerCase, StrLeq;
    PlainPath(m, prefix);
    PlainPath(n, prefix);
    var a, b := Split(m[|prefix|..]), Split(n[|prefix|..]);
    assert |a| == |PathOf(m, prefix)| <= |PathOf(n, prefix)| == |b|;
    forall i | 0 <= i < |a| ensures a[i] == b[i] {
      assert PathOf(m, prefix)[i] == PathOf(n, prefix)[i];
      assert a[i] in a && b[i] in b;
      LowerIsInjective(a[i], b[i]);
    }
    assert m == prefix + m[|prefix|..] && n == prefix + n[|prefix|..];
    if |a| < |b| {
      assert b == a + b[|a|..];
      JoinExtends(a, b[|a|..]);
    } else {
      assert a == b;
    }
    if m < n {
      PrefixSortsFirst(m, n);
    }
  }

  /** Two variables of which one path lies above the other. */
  ghost predicate Overlapping(environment: map<string, string>, prefix: string) {
    exists m, n :: m in environment && n in environment && prefix <= m && prefix <= n
      && PathOf(m, prefix) < PathOf(n, prefix)
  }

  lemma {:induction false} FilterKeepsOrder(xs: seq<string>, p: string -> bool)
    requires StrictlyIncreasing(xs)
    ensures StrictlyIncreasing(Filter(xs, p))
  {
    hide StrLeq;
    if xs == [] {
    } else {
      FilterKeepsOrder(xs[1..], p);
      var rest := Filter(xs[1..], p);
      forall i | 0 <= i < |rest| ensures StrLeq(xs[0], rest[i]) && xs[0] != rest[i] {
        assert rest[i] in rest;
        var k :| 0 <= k < |xs[1..]| && xs[1..][k] == rest[i];
        assert xs[k + 1] == rest[i];
      }
    }
  }

  /** No path is equal to or above another. */
  ghost predicate Apart(xs: seq<Assignment>) {
    forall i, j :: 0 <= i < |xs| && 0 <= j < |xs| && i != j ==> !(xs[i].0 <= xs[j].0)
  }

  lemma ApartFront(front: seq<Assignment>, last: Assignment)
    requires Apart(front + [last])
    ensures Apart(front) && forall x :: x in front ==> !(x.0 <= last.0) && !(last.0 <= x.0)
  {
    var xs := front + [last];
    forall i, j | 0 <= i < |front| && 0 <= j < |front| && i != j ensures !(front[i].0 <= front[j].0) {
      assert front[i] == xs[i] && front[j] == xs[j];
    }
    forall x | x in front ensures !(x.0 <= last.0) && !(last.0 <= x.0) {
      var i :| 0 <= i < |front| && front[i] == x;
      assert xs[i].0 == x.0 && xs[|front|] == last;
    }
  }

  lemma {:induction false} KindWithoutOverlap(xs: seq<Assignment>, q: seq<string>)
    requires Apart(xs) && Plain(xs)
    ensures forall v :: KindAfter(xs, q) == Leaf(v) <==> (q, v) in xs
    ensures KindAfter(xs, q) == Node <==> exists x :: x in xs && q < x.0
  {
    hide Apart, Plain;
    if xs == [] {
    } else {
      var front, last := xs[..|xs| - 1], xs[|xs| - 1];
      assert xs == front + [last];
      ApartFront(front, last);
      PlainAppend(front, last);
      ScalarStep(front, last, q);
      KindWithoutOverlap(front, q);
      assert forall x :: x in xs <==> x in front || x == last;
    }
  }

  /** Over plain names, a path lies above one sorted later exactly when two variables overlap at all. */
  lemma OverlapsComeInOrder(
    environment: map<string, string>, prefix: string, parse: string -> Json, kept: seq<string>, xs: seq<Assignment>)
    requires Listed(environment, prefix, parse, kept, xs) && PlainNames(environment, prefix) && StrictlyIncreasing(kept)
    ensures PrefixComesFirst(xs) <==> Overlapping(environment, prefix)
  {
    hide PrefixComesFirst, Overlapping, Listed, PlainNames, StrictlyIncreasing;
    if PrefixComesFirst(xs) { OrderedOverlap(environment, prefix, parse, kept, xs); }
    if Overlapping(environment, prefix) { OverlapIsOrdered(environment, prefix, parse, kept, xs); }
  }

  lemma OrderedOverlap(
    environment: map<string, string>, prefix: string, parse: string -> Json, kept: seq<string>, xs: seq<Assignment>)
    requires Listed(environment, prefix, parse, kept, xs) && PrefixComesFirst(xs)
    ensures Overlapping(environment, prefix)
  {
    hide PathOf;
    var i, j :| 0 <= i < j < |xs| && xs[i].0 < xs[j].0;
    assert kept[i] in kept && kept[j] in kept;
    assert PathOf(kept[i], prefix) < PathOf(kept[j], prefix);
  }

  lemma OverlapIsOrdered(
    environment: map<string, string>, prefix: string, parse: string -> Json, kept: seq<string>, xs: seq<Assignment>)
    requires Listed(environment, prefix, parse, kept, xs) && PlainNames(environment, prefix) && StrictlyIncreasing(kept)
    requires Overlapping(environment, prefix)
    ensures PrefixComesFirst(xs)
  {
    hide PathOf, PlainName, StrLeq, StrictlyIncreasing;
    var m, n :| m in environment && n in environment && prefix <= m && prefix <= n
      && PathOf(m, prefix) < PathOf(n, prefix);
    var i :| 0 <= i < |kept| && kept[i] == m;
    var j :| 0 <= j < |kept| && kept[j] == n;
    PathsFollowNames(m, n, prefix);
    IncreasingPlaces(kept, i, j);
    assert xs[i].0 < xs[j].0;
  }

  /** What sorts strictly before another stands before it. */
  lemma IncreasingPlaces(kept: seq<string>, i: nat, j: nat)
    requires StrictlyIncreasing(kept) && i < |kept| && j < |kept| && !StrLeq(kept[j], kept[i])
    ensures i < j
  {
    hide StrLeq;
    StrTotal(kept[i], kept[i]);
  }

  /** With upper-case names, no empty parts and values that are no objects, the overrides succeed exactly
      when no path lies above another, and then the tree has exactly the variables' values at its leaves
      and an object exactly above each of them. */
  lemma UpperCaseOverridesAreTheirPaths(environment: map<string, string>, prefix: string, parse: string -> Json)
    requires ScalarValues(environment, prefix, parse) && PlainNames(environment, prefix)
    ensures var r := Overrides(environment, prefix, parse);
      && (r.Success? <==> !Overlapping(environment, prefix))
      && (r.Success? ==> forall q: seq<string> :: q != [] ==> HoldsVariables(environment, prefix, parse, r.value, q))
  {
    hide Overrides, PathOf, Lookup, KindAfter, PlainName, StrLeq, SortedSet, Overlapping, PrefixComesFirst, Listed,
      PlainNames, ScalarValues, Filter, Map, Plain, Blocked;
    LastWriterDecides(environment, prefix, parse);
    SortedSetFacts(environment.Keys);
    var names := SortedSet(environment.Keys);
    var kept := Filter(names, HasPrefix(prefix));
    FilterKeepsOrder(names, HasPrefix(prefix));
    var xs := Assignments(names, environment, prefix, parse);
    AssignedPaths(environment, prefix, parse, kept, xs);
    ListedAreNamed(environment, prefix, parse, kept, xs);
    ScalarAssignments(names, environment, prefix, parse);
    OverlapsComeInOrder(environment, prefix, parse, kept, xs);
    var r := Overrides(environment, prefix, parse);
    if r.Success? {
      forall q: seq<string> | q != [] ensures HoldsVariables(environment, prefix, parse, r.value, q) {
        LeavesAreVariables(environment, prefix, parse, kept, xs, q);
      }
    }
  }

  /** At `q` there is a value exactly if some variable spells `q` and has it, and an object exactly if some
      variable's path goes through `q`. */
  ghost predicate HoldsVariables(
    environment: map<string, string>, prefix: string, parse: string -> Json, o: Object, q: seq<string>)
  {
    && (forall v :: KindOf(Lookup(o, q)) == Leaf(v) <==>
          exists name :: name in environment && prefix <= name
            && PathOf(name, prefix) == q && parse(environment[name]) == v)
    && (KindOf(Lookup(o, q)) == Node <==>
          exists name :: name in environment && prefix <= name && q < PathOf(name, prefix))
  }

  lemma ListedAreNamed(
    environment: map<string, string>, prefix: string, parse: string -> Json, kept: seq<string>, xs: seq<Assignment>)
    requires Listed(environment, prefix, parse, kept, xs)
    ensures AllNamed(xs)
  {
    hide PathOf;
    forall x | x in xs ensures x.0 != [] {
      var i :| 0 <= i < |xs| && xs[i] == x;
    }
  }

  ghost predicate Listed(
    environment: map<string, string>, prefix: string, parse: string -> Json, kept: seq<string>, xs: seq<Assignment>)
  {
    && |xs| == |kept|
    && (forall name :: name in kept <==> name in environment && prefix <= name)
    && forall i :: 0 <= i < |kept| ==>
         kept[i] in kept && xs[i] == (PathOf(kept[i], prefix), parse(environment[kept[i]])) && xs[i].0 != []
  }

  lemma AssignedPaths(
    environment: map<string, string>, prefix: string, parse: string -> Json, kept: seq<string>, xs: seq<Assignment>)
    requires PlainNames(environment, prefix)
    requires kept == Filter(SortedSet(environment.Keys), HasPrefix(prefix))
    requires xs == Map(AssignmentOf(environment, prefix, parse), kept)
    ensures Listed(environment, prefix, parse, kept, xs)
  {
    hide PathOf, PlainName, SortedSet;
    SortedSetFacts(environment.Keys);
    forall i | 0 <= i < |kept| ensures
      kept[i] in kept && prefix <= kept[i] && kept[i] in environment
      && xs[i] == (PathOf(kept[i], prefix), parse(environment[kept[i]])) && xs[i].0 != []
    {
      assert kept[i] in kept;
      PlainPath(kept[i], prefix);
    }
  }

  lemma LeavesAreVariables(
    environment: map<string, string>, prefix: string, parse: string -> Json, kept: seq<string>, xs: seq<Assignment>,
    q: seq<string>)
    requires Listed(environment, prefix, parse, kept, xs) && PlainNames(environment, prefix)
    requires StrictlyIncreasing(kept) && !Overlapping(environment, prefix) && Plain(xs)
    ensures forall v :: KindAfter(xs, q) == Leaf(v) <==>
      exists name :: name in environment && prefix <= name
        && PathOf(name, prefix) == q && parse(environment[name]) == v
    ensures KindAfter(xs, q) == Node <==>
      exists name :: name in environment && prefix <= name && q < PathOf(name, prefix)
  {
    hide PathOf, PlainName, StrLeq, KindAfter, Plain;
    forall i, j | 0 <= i < |xs| && 0 <= j < |xs| && i != j ensures !(xs[i].0 <= xs[j].0) {
      assert kept[i] in environment && kept[j] in environment;
      if xs[i].0 == xs[j].0 {
        PathsFollowNames(kept[i], kept[j], prefix);
      }
    }
    KindWithoutOverlap(xs, q);
    forall x | x in xs ensures
      exists name :: (name in environment && prefix <= name && x == (PathOf(name, prefix), parse(environment[name])))
    {
      var i :| 0 <= i < |xs| && xs[i] == x;
      assert kept[i] in environment && prefix <= kept[i];
    }
    forall name | name in environment && prefix <= name
      ensures (PathOf(name, prefix), parse(environment[name])) in xs
    {
      assert name in kept;
      var i :| 0 <= i < |kept| && kept[i] == name;
      assert xs[i] in xs;
    }
  }

  // ---------------------------------------------------------------- mixed case

  lemma SplitCons(c: char, s: string)
    requires !StartsWithSeparator([c] + s)
    ensures Split([c] + s) == [[c] + Split(s)[0]] + Split(s)[1..]
  {
    assert ([c] + s)[1..] == s;
  }

  lemma SplitOne(c: char)
    ensures Split([c]) == [[c]]
  {
    SplitCons(c, "");
    assert [c] + "" == [c];
    assert [[c]] + Split("")[1..] == [[c]];
  }

  lemma MixedCaseSplits()
    ensures Split("A__B") == ["A", "B"] && Split("a") == ["a"]
  {
    SplitOne('a');
    SplitOne('B');
    assert "__B"[2..] == "B";
    assert Split("__B") == ["", "B"];
    SplitCons('A', "__B");
    assert ['A'] + "__B" == "A__B" && ['A'] + "" == "A";
    assert ["", "B"][0] == "" && ["", "B"][1..] == ["B"];
  }

  lemma MixedCasePaths()
    ensures PathOf("V3__A__B", "V3__") == ["a", "b"] && PathOf("V3__a", "V3__") == ["a"]
  {
    hide Split, Filter;
    assert "V3__A__B"[|"V3__"|..] == "A__B" && "V3__a"[|"V3__"|..] == "a";
    MixedCaseSplits();
    var present := (part: string) => part != "";
    FilterAll(["A", "B"], present);
    FilterAll(["a"], present);
    assert Lower("A") == "a" && Lower("B") == "b" && Lower("a") == "a";
    assert ["A", "B"][1..] == ["B"];
  }

  lemma UpperSortsFirst(names: seq<string>)
    requires |names| == 2 && StrictlyIncreasing(names)
    requires forall name :: name in names <==> name == "V3__A__B" || name == "V3__a"
    ensures names == ["V3__A__B", "V3__a"]
  {
    assert names[0] in names && names[1] in names;
    assert StrLeq(names[0], names[1]);
    assert !StrLeq("V3__a", "V3__A__B");
  }

  /** Outside upper case the overlap goes unnoticed: the deeper variable sorts first, the shallower one
      replaces the object it made, and its value is lost without an error. */
  lemma MixedCaseLosesAValue(parse: string -> Json)
    requires !parse("1").JObj? && !parse("2").JObj?
    ensures var environment := map["V3__A__B" := "1", "V3__a" := "2"];
      var r := Overrides(environment, "V3__", parse);
      && Overlapping(environment, "V3__") && r.Success?
      && Lookup(r.value, ["a", "b"]).None? && KindOf(Lookup(r.value, ["a"])) == Leaf(parse("2"))
  {
    hide Overrides, Override, Insert, InsertAll, PathOf, Split, Join, StrLeq, SortedSet, Filter, Map, Lookup, KindOf,
      KindAfter, PrefixComesFirst, Blocked, AllNamed, Assignments;
    var environment := map["V3__A__B" := "1", "V3__a" := "2"];
    var names := SortedSet(environment.Keys);
    SortedSetFacts(environment.Keys);
    assert environment.Keys == {"V3__A__B", "V3__a"};
    assert |{"V3__A__B", "V3__a"}| == 2;
    UpperSortsFirst(names);
    MixedCasePaths();
    LastWriterDecides(environment, "V3__", parse);
    var xs := MixedCaseAssignments(environment, parse);
    MixedCaseKinds(xs, parse("1"), parse("2"));
    assert PathOf("V3__a", "V3__") < PathOf("V3__A__B", "V3__");
    LookupKind(Overrides(environment, "V3__", parse).value, ["a", "b"]);
  }

  lemma LookupKind(o: Object, q: seq<string>)
    ensures KindOf(Lookup(o, q)) == Absent <==> Lookup(o, q).None?
  {
    hide Lookup;
  }

  lemma MixedCaseAssignments(environment: map<string, string>, parse: string -> Json) returns (xs: seq<Assignment>)
    requires environment == map["V3__A__B" := "1", "V3__a" := "2"]
    requires SortedSet(environment.Keys) == ["V3__A__B", "V3__a"]
    ensures xs == Assignments(SortedSet(environment.Keys), environment, "V3__", parse)
    ensures xs == [(["a", "b"], parse("1")), (["a"], parse("2"))]
  {
    hide PathOf, SortedSet, Filter, Map;
    var names := ["V3__A__B", "V3__a"];
    MixedCasePaths();
    FilterAll(names, HasPrefix("V3__"));
    xs := Assignments(names, environment, "V3__", parse);
    assert |xs| == 2 && xs[0] == (["a", "b"], parse("1")) && xs[1] == (["a"], parse("2"));
  }

  lemma MixedCaseKinds(xs: seq<Assignment>, first: Json, second: Json)
    requires xs == [(["a", "b"], first), (["a"], second)] && !first.JObj? && !second.JObj?
    ensures KindAfter(xs, ["a", "b"]) == Absent && KindAfter(xs, ["a"]) == Leaf(second)
    ensures !PrefixComesFirst(xs) && AllNamed(xs)
  {
    hide KindAfter;
    assert xs == [xs[0]] + [xs[1]];
    ScalarStep([xs[0]], xs[1], ["a", "b"]);
    ScalarStep([xs[0]], xs[1], ["a"]);
    assert ["a"] < ["a", "b"] && !(["a", "b"] < ["a"]);
  }
}
