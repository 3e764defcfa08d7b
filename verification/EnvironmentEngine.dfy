/** Environment overrides as the program builds them: nested dictionaries filled in place through a cursor
    that moves from one to the next. Dictionaries are cells, a reference to one is its address. */
module EnvironmentEngine {
  import Orders
  import opened Collections
  import opened Json
  import opened EnvironmentOverrides

  /** A dictionary: its plain entries, and the addresses of the dictionaries it holds. */
  datatype Cell = Cell(entries: map<string, Json>, links: map<string, nat>)

  /** A dictionary only holds dictionaries made after it, and under other keys than its plain entries. */
  predicate Ordered(cells: seq<Cell>) {
    forall i :: 0 <= i < |cells| ==>
      && cells[i].entries.Keys !! cells[i].links.Keys
      && forall k :: k in cells[i].links ==> i < cells[i].links[k] < |cells|
  }

  /** The object a dictionary stands for. */
  function At(cells: seq<Cell>, i: nat): Object
    requires Ordered(cells) && i < |cells|
    decreases |cells| - i
  {
    map k | k in cells[i].entries.Keys + cells[i].links.Keys ::
      if k in cells[i].links then JObj(At(cells, cells[i].links[k])) else cells[i].entries[k]
  }

  /** Every dictionary has one place in the tree: the path of keys that leads to it. */
  ghost predicate Placed(cells: seq<Cell>, places: seq<seq<string>>) {
    && Ordered(cells) && |places| == |cells| > 0 && places[0] == []
    && forall i, k :: 0 <= i < |cells| && k in cells[i].links ==> places[cells[i].links[k]] == places[i] + [k]
  }

  /** The address reached from `i` along a path. */
  predicate Leads(cells: seq<Cell>, i: nat, path: seq<string>, c: nat)
    requires Ordered(cells) && i < |cells|
    decreases |path|
  {
    if path == [] then i == c
    else path[0] in cells[i].links && Leads(cells, cells[i].links[path[0]], path[1..], c)
  }

  /** The object with the one at `path` replaced. */
  function Replace(o: Object, path: seq<string>, x: Object): Object
    decreases |path|
  {
    if path == [] then x
    else
      var child := if path[0] in o && o[path[0]].JObj? then o[path[0]].fields else map[];
      o[path[0] := JObj(Replace(child, path[1..], x))]
  }

  // ---------------------------------------------------------------- reading and replacing along a path

  lemma {:induction false} LeadsPlace(cells: seq<Cell>, places: seq<seq<string>>, i: nat, path: seq<string>, c: nat)
    requires Placed(cells, places) && i < |cells| && Leads(cells, i, path, c)
    ensures i <= c < |cells| && places[c] == places[i] + path
    ensures path != [] ==> i < c
    decreases |path|
  {
    if path == [] {
    } else {
      var j := cells[i].links[path[0]];
      LeadsPlace(cells, places, j, path[1..], c);
      assert places[i] + path == places[i] + [path[0]] + path[1..];
    }
  }

  lemma {:induction false} LeadsLookup(cells: seq<Cell>, i: nat, path: seq<string>, c: nat)
    requires Ordered(cells) && i < |cells| && c < |cells| && Leads(cells, i, path, c)
    ensures Lookup(At(cells, i), path) == Some(JObj(At(cells, c)))
    decreases |path|
  {
    if path == [] {
    } else {
      var j := cells[i].links[path[0]];
      LeadsLookup(cells, j, path[1..], c);
      assert At(cells, i)[path[0]] == JObj(At(cells, j));
    }
  }

  /** Changing one cell changes no dictionary whose place is not above it. */
  lemma {:induction false} Untouched(
    cells: seq<Cell>, cells': seq<Cell>, places: seq<seq<string>>, c: nat, i: nat)
    requires Placed(cells, places) && Placed(cells', places) && c < |cells| && i < |cells|
    requires forall j :: 0 <= j < |cells| && j != c ==> cells'[j] == cells[j]
    requires !(places[i] <= places[c])
    ensures At(cells', i) == At(cells, i)
    decreases |cells| - i
  {
    assert i != c;
    forall k | k in cells[i].links ensures At(cells', cells[i].links[k]) == At(cells, cells[i].links[k]) {
      assert places[cells[i].links[k]] == places[i] + [k];
      Untouched(cells, cells', places, c, cells[i].links[k]);
    }
  }

  /** Off the path that leads to the changed cell nothing changes. */
  lemma OffThePath(
    cells: seq<Cell>, cells': seq<Cell>, places: seq<seq<string>>, i: nat, path: seq<string>, c: nat, k: string)
    requires Placed(cells, places) && Placed(cells', places) && c < |cells| && i < |cells|
    requires path != [] && places[c] == places[i] + path && k in cells[i].links && k != path[0]
    requires forall j :: 0 <= j < |cells| && j != c ==> cells'[j] == cells[j]
    ensures At(cells', cells[i].links[k]) == At(cells, cells[i].links[k])
  {
    hide At;
    var j := cells[i].links[k];
    assert places[j] == places[i] + [k];
    assert places[j][|places[i]|] == k && places[c][|places[i]|] == path[0];
    Untouched(cells, cells', places, c, j);
  }

  /** Changing the cell a path leads to replaces what is at that path. */
  lemma {:induction false} ChangedAt(
    cells: seq<Cell>, cells': seq<Cell>, places: seq<seq<string>>, i: nat, path: seq<string>, c: nat)
    requires Placed(cells, places) && Placed(cells', places) && c < |cells| && i < |cells| && Leads(cells, i, path, c)
    requires forall j :: 0 <= j < |cells| && j != c ==> cells'[j] == cells[j]
    ensures At(cells', i) == Replace(At(cells, i), path, At(cells', c))
    ensures Leads(cells', i, path, c)
    decreases |path|
  {
    if path == [] {
    } else {
      LeadsPlace(cells, places, i, path, c);
      var next := cells[i].links[path[0]];
      ChangedAt(cells, cells', places, next, path[1..], c);
      forall k | k in cells[i].links && k != path[0]
        ensures At(cells', cells[i].links[k]) == At(cells, cells[i].links[k])
      {
        OffThePath(cells, cells', places, i, path, c, k);
      }
      hide Placed, Replace;
      OneLinkChanged(cells, cells', i, path[0]);
      ReplaceHead(At(cells, i), path, At(cells', c));
    }
  }

  lemma OneLinkChanged(cells: seq<Cell>, cells': seq<Cell>, i: nat, part: string)
    requires Ordered(cells) && Ordered(cells') && i < |cells| == |cells'|
    requires cells'[i] == cells[i] && part in cells[i].links
    requires forall k :: k in cells[i].links && k != part ==>
      At(cells', cells[i].links[k]) == At(cells, cells[i].links[k])
    ensures At(cells', i) == At(cells, i)[part := JObj(At(cells', cells[i].links[part]))]
    ensures part in At(cells, i) && At(cells, i)[part] == JObj(At(cells, cells[i].links[part]))
  {
    assert At(cells', i).Keys == At(cells, i).Keys;
  }

  lemma ReplaceHead(o: Object, path: seq<string>, x: Object)
    requires path != [] && path[0] in o && o[path[0]].JObj?
    ensures Replace(o, path, x) == o[path[0] := JObj(Replace(o[path[0]].fields, path[1..], x))]
  {
  }

  /** A new cell nobody refers to changes nothing. */
  lemma {:induction false} Added(cells: seq<Cell>, cell: Cell, i: nat)
    requires Ordered(cells) && Ordered(cells + [cell]) && i < |cells|
    ensures At(cells + [cell], i) == At(cells, i)
    decreases |cells| - i
  {
    forall k | k in cells[i].links ensures At(cells + [cell], cells[i].links[k]) == At(cells, cells[i].links[k]) {
      Added(cells, cell, cells[i].links[k]);
    }
  }

  lemma {:induction false} AddedLeads(cells: seq<Cell>, cell: Cell, i: nat, path: seq<string>, c: nat)
    requires Ordered(cells) && Ordered(cells + [cell]) && i < |cells| && Leads(cells, i, path, c)
    ensures Leads(cells + [cell], i, path, c)
    decreases |path|
  {
    if path == [] {
    } else {
      AddedLeads(cells, cell, cells[i].links[path[0]], path[1..], c);
    }
  }

  lemma {:induction false} LeadsOn(cells: seq<Cell>, i: nat, path: seq<string>, c: nat, part: string)
    requires Ordered(cells) && i < |cells| && c < |cells| && Leads(cells, i, path, c) && part in cells[c].links
    ensures Leads(cells, i, path + [part], cells[c].links[part])
    decreases |path|
  {
    if path == [] {
      assert [part][1..] == [];
    } else {
      assert (path + [part])[0] == path[0] && (path + [part])[1..] == path[1..] + [part];
      LeadsOn(cells, cells[i].links[path[0]], path[1..], c, part);
    }
  }

  // ---------------------------------------------------------------- what insertion does along a path

  /** Inserting through an existing object is inserting into it. */
  lemma {:induction false} InsertThrough(o: Object, path: seq<string>, rest: seq<string>, v: Json)
    requires rest != [] && Lookup(o, path).Some? && Lookup(o, path).value.JObj?
    ensures Insert(o, path + rest, v) ==
      match Insert(Lookup(o, path).value.fields, rest, v)
      case None => None
      case Some(x) => Some(Replace(o, path, x))
    decreases |path|
  {
    if path == [] {
      assert [] + rest == rest;
    } else {
      assert (path + rest)[0] == path[0] && (path + rest)[1..] == path[1..] + rest;
      if |path| == 1 {
        assert path[1..] == [];
      }
      InsertThrough(o[path[0]].fields, path[1..], rest, v);
    }
  }

  lemma {:induction false} ReplaceTwice(o: Object, path: seq<string>, x: Object, y: Object)
    ensures Replace(Replace(o, path, x), path, y) == Replace(o, path, y)
    ensures Lookup(Replace(o, path, x), path) == Some(JObj(x))
    decreases |path|
  {
    if path == [] {
    } else {
      var child := if path[0] in o && o[path[0]].JObj? then o[path[0]].fields else map[];
      ReplaceTwice(child, path[1..], x, y);
    }
  }

  /** The object with an empty object where it has nothing. */
  function WithObject(o: Object, part: string): Object {
    if part in o then o else o[part := JObj(map[])]
  }

  lemma InsertWithObject(o: Object, rest: seq<string>, v: Json)
    requires |rest| > 1
    ensures Insert(WithObject(o, rest[0]), rest, v) == Insert(o, rest, v)
  {
    if rest[0] !in o {
      match Insert(map[], rest[1..], v) {
        case None =>
        case Some(x) => assert o[rest[0] := JObj(map[])][rest[0] := JObj(x)] == o[rest[0] := JObj(x)];
      }
    }
  }

  /** Making room for the next part does not change what the insertion will do. */
  lemma RoomChangesNothing(o: Object, path: seq<string>, x: Object, rest: seq<string>, v: Json)
    requires |rest| > 1 && Lookup(o, path) == Some(JObj(x))
    ensures Insert(Replace(o, path, WithObject(x, rest[0])), path + rest, v) == Insert(o, path + rest, v)
  {
    hide Insert, Lookup, Replace;
    var y := WithObject(x, rest[0]);
    ReplaceTwice(o, path, y, y);
    InsertThrough(o, path, rest, v);
    InsertThrough(Replace(o, path, y), path, rest, v);
    InsertWithObject(x, rest, v);
    match Insert(x, rest, v) {
      case None =>
      case Some(z) => ReplaceTwice(o, path, y, z);
    }
  }

  // ---------------------------------------------------------------- the dictionaries, filled in place

  class Dictionaries {
    var cells: seq<Cell>
    ghost var places: seq<seq<string>>

    ghost predicate Valid()
      reads this
    {
      Placed(cells, places)
    }

    /** The object the outermost dictionary stands for. */
    function Contents(): Object
      requires Valid()
      reads this
    {
      At(cells, 0)
    }

    constructor ()
      ensures Valid() && Contents() == map[]
    {
      cells, places := [Cell(map[], map[])], [[]];
    }

    /** Goes on to the next dictionary on the way, which is made if there is nothing there; none when
        something else is there. An object that came out of a variable's value becomes a dictionary when the
        cursor first goes into it. */
    method Child(cursor: nat, part: string, ghost path: seq<string>) returns (next: Option<nat>)
      requires Valid() && cursor < |cells| && Leads(cells, 0, path, cursor)
      modifies this
      ensures Valid() && |cells| >= |old(cells)|
      ensures next.Some? <==> WithObject(At(old(cells), cursor), part)[part].JObj?
      ensures next.Some? ==>
        && next.value < |cells| && Leads(cells, 0, path + [part], next.value)
        && Contents() == Replace(old(Contents()), path, WithObject(At(old(cells), cursor), part))
      ensures next.None? ==> cells == old(cells)
    {
      hide At, Leads, Replace;
      var here := cells[cursor];
      CellMeans(cells, cursor, part);
      if part in here.links {
        ReplaceSame(cells, places, path, cursor);
        LeadsOn(cells, 0, path, cursor, part);
        return Some(here.links[part]);
      }
      if part in here.entries && !here.entries[part].JObj? {
        return None;
      }
      var fresh' := Cell(if part in here.entries then here.entries[part].fields else map[], map[]);
      var n := |cells|;
      Extended(cells, places, path, cursor, part, fresh');
      Linked(cells + [fresh'], places + [places[cursor] + [part]], path, cursor, part, n);
      cells := cells + [fresh'];
      cells := cells[cursor := Cell(here.entries - {part}, here.links[part := n])];
      places := places + [places[cursor] + [part]];
      next := Some(n);
    }

    /** Sets an entry of the dictionary the cursor is at. */
    method Set(cursor: nat, part: string, v: Json, ghost path: seq<string>)
      requires Valid() && cursor < |cells| && Leads(cells, 0, path, cursor)
      modifies this
      ensures Valid()
      ensures Contents() == Replace(old(Contents()), path, At(old(cells), cursor)[part := v])
    {
      hide At, Leads, Replace;
      var here := cells[cursor];
      Stored(cells, places, path, cursor, part, v);
      cells := cells[cursor := Cell(here.entries[part := v], here.links - {part})];
    }
  }

  /** What is under a key of a dictionary. */
  lemma CellMeans(cells: seq<Cell>, i: nat, part: string)
    requires Ordered(cells) && i < |cells|
    ensures part in At(cells, i) <==> part in cells[i].entries || part in cells[i].links
    ensures part in cells[i].links ==> At(cells, i)[part] == JObj(At(cells, cells[i].links[part]))
    ensures part in cells[i].entries ==> At(cells, i)[part] == cells[i].entries[part]
  {
  }

  lemma ReplaceSame(cells: seq<Cell>, places: seq<seq<string>>, path: seq<string>, c: nat)
    requires Placed(cells, places) && c < |cells| && Leads(cells, 0, path, c)
    ensures At(cells, 0) == Replace(At(cells, 0), path, At(cells, c))
  {
    ChangedAt(cells, cells, places, 0, path, c);
  }

  /** A new cell placed under `part` of the cursor, not yet linked. */
  lemma Extended(cells: seq<Cell>, places: seq<seq<string>>, path: seq<string>, c: nat, part: string, cell: Cell)
    requires Placed(cells, places) && c < |cells| && Leads(cells, 0, path, c) && cell.links == map[]
    ensures Placed(cells + [cell], places + [places[c] + [part]])
    ensures At(cells + [cell], 0) == At(cells, 0) && At(cells + [cell], c) == At(cells, c)
    ensures Leads(cells + [cell], 0, path, c)
  {
    hide At, Leads;
    Added(cells, cell, 0);
    Added(cells, cell, c);
    AddedLeads(cells, cell, 0, path, c);
  }

  /** Linking the last cell under `part` of the cursor. */
  lemma Linked(cells: seq<Cell>, places: seq<seq<string>>, path: seq<string>, c: nat, part: string, n: nat)
    requires Placed(cells, places) && c < n == |cells| - 1 && Leads(cells, 0, path, c)
    requires places[n] == places[c] + [part] && part !in cells[c].links && cells[n].links == map[]
    requires cells[n].entries ==
      if part in cells[c].entries && cells[c].entries[part].JObj? then cells[c].entries[part].fields else map[]
    requires part in cells[c].entries ==> cells[c].entries[part].JObj?
    ensures var cells' := cells[c := Cell(cells[c].entries - {part}, cells[c].links[part := n])];
      && Placed(cells', places) && Leads(cells', 0, path + [part], n)
      && At(cells', 0) == Replace(At(cells, 0), path, WithObject(At(cells, c), part))
  {
    hide Replace, At, Leads, WithObject;
    var cells' := cells[c := Cell(cells[c].entries - {part}, cells[c].links[part := n])];
    ChangedAt(cells, cells', places, 0, path, c);
    LeadsOn(cells', 0, path, c, part);
    OtherLinksKept(cells, cells', places, c);
    LinkedCell(cells, cells', c, part, n);
  }

  lemma LinkedCell(cells: seq<Cell>, cells': seq<Cell>, c: nat, part: string, n: nat)
    requires Ordered(cells) && Ordered(cells') && c < n < |cells| == |cells'|
    requires cells'[n] == cells[n] && cells[n].links == map[]
    requires cells'[c] == Cell(cells[c].entries - {part}, cells[c].links[part := n]) && part !in cells[c].links
    requires cells[n].entries ==
      if part in cells[c].entries && cells[c].entries[part].JObj? then cells[c].entries[part].fields else map[]
    requires part in cells[c].entries ==> cells[c].entries[part].JObj?
    requires forall k :: k in cells[c].links ==> At(cells', cells[c].links[k]) == At(cells, cells[c].links[k])
    ensures At(cells', c) == WithObject(At(cells, c), part)
  {
    assert At(cells', n) == cells[n].entries;
    assert At(cells', c).Keys == WithObject(At(cells, c), part).Keys;
  }

  /** The dictionaries a changed cell goes on holding are the same as before. */
  lemma OtherLinksKept(cells: seq<Cell>, cells': seq<Cell>, places: seq<seq<string>>, c: nat)
    requires Placed(cells, places) && Placed(cells', places) && c < |cells|
    requires forall j :: 0 <= j < |cells| && j != c ==> cells'[j] == cells[j]
    ensures forall k :: k in cells[c].links ==> At(cells', cells[c].links[k]) == At(cells, cells[c].links[k])
  {
    hide At;
    forall k | k in cells[c].links ensures At(cells', cells[c].links[k]) == At(cells, cells[c].links[k]) {
      assert places[cells[c].links[k]] == places[c] + [k];
      Untouched(cells, cells', places, c, cells[c].links[k]);
    }
  }

  /** Storing a value under `part` of the cursor. */
  lemma Stored(cells: seq<Cell>, places: seq<seq<string>>, path: seq<string>, c: nat, part: string, v: Json)
    requires Placed(cells, places) && c < |cells| && Leads(cells, 0, path, c)
    ensures var cells' := cells[c := Cell(cells[c].entries[part := v], cells[c].links - {part})];
      && Placed(cells', places)
      && At(cells', 0) == Replace(At(cells, 0), path, At(cells, c)[part := v])
  {
    hide Replace, At, Leads;
    var cells' := cells[c := Cell(cells[c].entries[part := v], cells[c].links - {part})];
    ChangedAt(cells, cells', places, 0, path, c);
    OtherLinksKept(cells, cells', places, c);
    StoredCell(cells, cells', c, part, v);
  }

  lemma StoredCell(cells: seq<Cell>, cells': seq<Cell>, c: nat, part: string, v: Json)
    requires Ordered(cells) && Ordered(cells') && c < |cells| == |cells'|
    requires cells'[c] == Cell(cells[c].entries[part := v], cells[c].links - {part})
    requires forall k :: k in cells[c].links ==> At(cells', cells[c].links[k]) == At(cells, cells[c].links[k])
    ensures At(cells', c) == At(cells, c)[part := v]
  {
    assert At(cells', c).Keys == At(cells, c)[part := v].Keys;
  }

  // ---------------------------------------------------------------- the loops

  /** Walks the cursor down the parts, making dictionaries on the way, and sets the value at the end. */
  method InsertAlong(d: Dictionaries, parts: seq<string>, v: Json) returns (ok: bool)
    requires d.Valid() && parts != []
    modifies d
    ensures d.Valid()
    ensures ok == Insert(old(d.Contents()), parts, v).Some?
    ensures ok ==> d.Contents() == Insert(old(d.Contents()), parts, v).value
  {
    hide Insert, At, Leads, Replace, Lookup, WithObject;
    var cursor: nat := 0;
    StartsHere(d.cells);
    for i := 0 to |parts| - 1
      invariant d.Valid() && cursor < |d.cells| && Leads(d.cells, 0, parts[..i], cursor)
      invariant Insert(d.Contents(), parts, v) == Insert(old(d.Contents()), parts, v)
    {
      BeforeChild(d.cells, parts, i, cursor, v);
      var next := d.Child(cursor, parts[i], parts[..i]);
      if next.None? { return false; }
      assert parts[..i + 1] == parts[..i] + [parts[i]];
      cursor := next.value;
    }
    BeforeSet(d.cells, parts, cursor, v);
    d.Set(cursor, parts[|parts| - 1], v, parts[..|parts| - 1]);
    ok := true;
  }

  lemma StartsHere(cells: seq<Cell>)
    requires Ordered(cells) && |cells| > 0
    ensures Leads(cells, 0, [], 0)
  {
  }

  /** What the insertion will do, seen from the cursor: making room changes nothing, and anything but a
      dictionary in the way refuses it. */
  lemma BeforeChild(cells: seq<Cell>, parts: seq<string>, i: nat, c: nat, v: Json)
    requires Ordered(cells) && c < |cells| && i < |parts| - 1 && Leads(cells, 0, parts[..i], c)
    ensures var o, x := At(cells, 0), WithObject(At(cells, c), parts[i]);
      if x[parts[i]].JObj? then Insert(Replace(o, parts[..i], x), parts, v) == Insert(o, parts, v)
      else Insert(o, parts, v).None?
  {
    hide At, Leads, Replace, Lookup;
    LeadsLookup(cells, 0, parts[..i], c);
    assert parts == parts[..i] + parts[i..];
    RoomChangesNothing(At(cells, 0), parts[..i], At(cells, c), parts[i..], v);
    InsertThrough(At(cells, 0), parts[..i], parts[i..], v);
  }

  lemma BeforeSet(cells: seq<Cell>, parts: seq<string>, c: nat, v: Json)
    requires Ordered(cells) && c < |cells| && parts != [] && Leads(cells, 0, parts[..|parts| - 1], c)
    ensures var n := |parts| - 1;
      Insert(At(cells, 0), parts, v) == Some(Replace(At(cells, 0), parts[..n], At(cells, c)[parts[n] := v]))
  {
    hide At, Leads, Replace, Lookup;
    var n := |parts| - 1;
    LeadsLookup(cells, 0, parts[..n], c);
    assert parts == parts[..n] + [parts[n]];
    InsertThrough(At(cells, 0), parts[..n], [parts[n]], v);
  }

  /** The overrides that are left from the `i`-th name on. */
  function OverrideFrom(
    names: seq<string>, i: nat, environment: map<string, string>, prefix: string, parse: string -> Json, o: Object):
    Result<Object, OverrideError>
    requires i <= |names| && forall name :: name in names ==> name in environment
  {
    Override(names[i..], environment, prefix, parse, o)
  }

  lemma OverrideNext(
    names: seq<string>, i: nat, environment: map<string, string>, prefix: string, parse: string -> Json, o: Object)
    requires i <= |names| && forall name :: name in names ==> name in environment
    ensures OverrideFrom(names, i, environment, prefix, parse, o) ==
      if i == |names| then Success(o)
      else if !(prefix <= names[i]) then OverrideFrom(names, i + 1, environment, prefix, parse, o)
      else
        var path := PathOf(names[i], prefix);
        if path == [] then Failure(InvalidName(names[i]))
        else
          match Insert(o, path, parse(environment[names[i]]))
          case None => Failure(ConflictingName(names[i]))
          case Some(o') => OverrideFrom(names, i + 1, environment, prefix, parse, o')
  {
    hide PathOf, Insert;
    if i < |names| {
      assert names[i..][0] == names[i] && names[i..][1..] == names[i + 1..];
    }
  }

  lemma WholeOverride(names: seq<string>, environment: map<string, string>, prefix: string, parse: string -> Json)
    requires forall name :: name in names ==> name in environment
    ensures OverrideFrom(names, 0, environment, prefix, parse, map[])
         == Override(names, environment, prefix, parse, map[])
  {
    hide Override;
    assert names[0..] == names;
  }

  /** Inserts the variables' values one by one, in sorted order of their names. */
  method ReadEnvironment(environment: map<string, string>, prefix: string, parse: string -> Json)
    returns (r: Result<Object, OverrideError>)
    ensures r == Overrides(environment, prefix, parse)
  {
    hide PathOf, Insert, Override, OverrideFrom, Orders.SortedSet, Orders.StrictlyIncreasing, At, Placed;
    Orders.SortedSetFacts(environment.Keys);
    var names := Orders.SortedSet(environment.Keys);
    var result := new Dictionaries();
    WholeOverride(names, environment, prefix, parse);
    for i := 0 to |names|
      invariant fresh(result) && result.Valid()
      invariant OverrideFrom(names, i, environment, prefix, parse, result.Contents())
             == Overrides(environment, prefix, parse)
    {
      var name := names[i];
      OverrideNext(names, i, environment, prefix, parse, result.Contents());
      if !(prefix <= name) { continue; }
      var parts := PathOf(name, prefix);
      if parts == [] { return Failure(InvalidName(name)); }
      var inserted := InsertAlong(result, parts, parse(environment[name]));
      if !inserted { return Failure(ConflictingName(name)); }
    }
    OverrideNext(names, |names|, environment, prefix, parse, result.Contents());
    r := Success(result.Contents());
  }
}
