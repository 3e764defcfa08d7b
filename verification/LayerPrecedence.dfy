/** Which layer decides a setting: for layers whose keys are distinct ignoring case, the latest one that has anything to
    say about it. */
module LayerPrecedence {
  import opened Collections
  import opened ConfigLayers
  import opened Json
  import opened ProtectedValues
  import opened Text

  /** What a value says at a path of keys, whatever their case: nothing, for want of a key; that nothing can be there,
      because something above it is no object; or a value. */
  datatype View = Unsaid | Cut | Says(value: Json)

  ghost function Sight(v: Json, q: seq<string>): View
    decreases |q|
  {
    if q == [] then Says(v)
    else if !v.JObj? then Cut
    else
      match Found(v.fields, q[0])
      case None => Unsaid
      case Some(x) => Sight(x.1, q[1..])
  }

  lemma FoundIsTidy(o: Object, k: string)
    requires Tidy(JObj(o)) && Found(o, k).Some?
    ensures Tidy(Found(o, k).value.1) && Found(o, k).value.0 in o
  {
    hide Lower;
    TwinFacts(o.Keys, k);
  }

  /** What a combination says: what the override says there, and where it says nothing, what the base did. */
  ghost predicate Overlaid(c: View, a: View, b: View) {
    match b
    case Says(w) => if w.JObj? then c.Says? && c.value.JObj? else c == b
    case Cut => c == Cut
    case Unsaid => forall w: Json :: !w.JObj? ==> (c == Says(w) <==> a == Says(w))
  }

  lemma {:induction false} CombinedSight(a: Json, b: Json, q: seq<string>)
    requires Tidy(a) && Tidy(b)
    ensures Overlaid(Sight(Combined(a, b), q), Sight(a, q), Sight(b, q))
    decreases |q|
  {
    hide Found, Tidy, DeepMerge, Combined;
    CombinedCases(a, b);
    if q != [] && a.JObj? && b.JObj? {
      assert JObj(a.fields) == a && JObj(b.fields) == b;
      TidyParts(a.fields);
      TidyParts(b.fields);
      FoundInMerge(a.fields, b, q[0]);
      if Found(a.fields, q[0]).Some? && Found(b.fields, q[0]).Some? {
        FoundIsTidy(a.fields, q[0]);
        FoundIsTidy(b.fields, q[0]);
        CombinedSight(Found(a.fields, q[0]).value.1, Found(b.fields, q[0]).value.1, q[1..]);
      }
    }
  }

  /** Nothing was given, or nothing in it. */
  ghost predicate Empty(layer: Json) {
    layer in {JNull, JBool(false), JInt(0), JStr(""), JArr([]), JObj(map[])}
  }

  lemma EmptyMeans(layer: Json)
    ensures Falsy(layer) <==> Empty(layer)
  {
  }

  /** What a layer says at a path; one that is skipped says nothing. */
  ghost function LayerSays(layer: Json, q: seq<string>): View {
    if Empty(layer) then Unsaid else Sight(layer, q)
  }

  /** The latest layer that says anything at the path says this. */
  ghost predicate LatestSays(layers: seq<Layer>, q: seq<string>, w: Json) {
    exists m :: 0 <= m < |layers| && LayerSays(layers[m].value, q) == Says(w)
      && forall j :: m < j < |layers| ==> LayerSays(layers[j].value, q) == Unsaid
  }

  ghost predicate NoneSays(layers: seq<Layer>, q: seq<string>) {
    forall j :: 0 <= j < |layers| ==> LayerSays(layers[j].value, q) == Unsaid
  }

  lemma LatestHead(layers: seq<Layer>, q: seq<string>, w: Json)
    requires layers != []
    ensures LatestSays(layers, q, w) <==>
      LatestSays(layers[1..], q, w) || (NoneSays(layers[1..], q) && LayerSays(layers[0].value, q) == Says(w))
    ensures NoneSays(layers, q) <==> LayerSays(layers[0].value, q) == Unsaid && NoneSays(layers[1..], q)
  {
    hide LayerSays;
    if LatestSays(layers, q, w) {
      var m :| 0 <= m < |layers| && LayerSays(layers[m].value, q) == Says(w)
        && forall j :: m < j < |layers| ==> LayerSays(layers[j].value, q) == Unsaid;
      forall j | 0 <= j < |layers[1..]| && m <= j ensures LayerSays(layers[1..][j].value, q) == Unsaid {
        assert layers[1..][j] == layers[j + 1];
      }
      if m > 0 {
        assert layers[1..][m - 1] == layers[m];
      }
    }
    if LatestSays(layers[1..], q, w) {
      var m :| 0 <= m < |layers[1..]| && LayerSays(layers[1..][m].value, q) == Says(w)
        && forall j :: m < j < |layers[1..]| ==> LayerSays(layers[1..][j].value, q) == Unsaid;
      forall j | m + 1 < j < |layers| ensures LayerSays(layers[j].value, q) == Unsaid {
        assert layers[1..][j - 1] == layers[j];
      }
      assert layers[m + 1] == layers[1..][m];
    }
    forall j | 0 < j < |layers| ensures layers[j] == layers[1..][j - 1] {
    }
  }

  lemma {:induction false} LayersDecide(configuration: Object, layers: seq<Layer>, q: seq<string>, w: Json)
    requires AllList(layers) && Tidy(JObj(configuration)) && TidyLayers(layers) && q != [] && !w.JObj?
    ensures var r := Assembled(configuration, layers);
      r.Success? ==>
        (Sight(JObj(r.value), q) == Says(w) <==>
           LatestSays(layers, q, w) || (NoneSays(layers, q) && Sight(JObj(configuration), q) == Says(w)))
    decreases |layers|
  {
    hide Merged, Tidy, Lists, DeepMerge, AllList, TidyLayers, Sight, LatestSays, NoneSays, Violates;
    if layers == [] {
      NothingSays(q, w);
    } else {
      LayersSplit(layers);
      LatestHead(layers, q, w);
      var Layer(value, ord) := layers[0];
      EmptyMeans(value);
      if Falsy(value) {
        LayersDecide(configuration, layers[1..], q, w);
      } else if value.JObj? {
        MergedMeans(configuration, value, "", ord);
        if Merged(configuration, value, "", ord).Success? {
          MergeStaysTidy(configuration, value, value.fields.Keys);
          CombinedSight(JObj(configuration), value, q);
          LayersDecide(Merged(configuration, value, "", ord).value, layers[1..], q, w);
        }
      }
    }
  }

  lemma NothingSays(q: seq<string>, w: Json)
    ensures !LatestSays([], q, w) && NoneSays([], q)
  {
  }

  /** An assembly that succeeds has a value that is no object at a path exactly when the latest layer that says anything
      there says it. */
  lemma LatestLayerDecides(layers: seq<Layer>, q: seq<string>, w: Json)
    requires AllList(layers) && TidyLayers(layers) && q != [] && !w.JObj?
    ensures var r := Assembled(map[], layers);
      r.Success? ==> (Sight(JObj(r.value), q) == Says(w) <==> LatestSays(layers, q, w))
  {
    hide Assembled, AllList, TidyLayers, LatestSays, NoneSays;
    EmptySays(q, w);
    LayersDecide(map[], layers, q, w);
  }

  lemma EmptySays(q: seq<string>, w: Json)
    requires q != []
    ensures Tidy(JObj(map[])) && Sight(JObj(map[]), q) != Says(w)
  {
  }

  // ---------------------------------------------------------------- which overrides are refused

  /** The value at a path of keys, spelled just so. */
  ghost function SpelledOut(o: Object, q: seq<string>): Option<Json>
    decreases |q|
  {
    if q == [] || q[0] !in o then None
    else if |q| == 1 then Some(o[q[0]])
    else match o[q[0]] case JObj(inner) => SpelledOut(inner, q[1..]) case _ => None
  }

  ghost function Dotted(q: seq<string>): string
    decreases |q|
  {
    if q == [] then ""
    else if Dotted(q[..|q| - 1]) == "" then q[|q| - 1]
    else Dotted(q[..|q| - 1]) + "." + q[|q| - 1]
  }

  /** The base has a value there, and the override, whatever the case of its keys, says another. */
  ghost predicate Changes(base: Object, override: Json, q: seq<string>) {
    match SpelledOut(base, q)
    case None => false
    case Some(v) => Sight(override, q).Says? && Sight(override, q).value != v
  }

  ghost predicate ChangesProtected(base: Object, override: Json, prefix: string, q: seq<string>) {
    q != [] && KeysText(prefix, q) in PROTECTED_PATHS && Changes(base, override, q)
  }

  /** The entry of the override that changes an entry of the base. */
  lemma TwinEntry(base: Object, o: Object, k: string)
    requires DistinctKeys(base.Keys) && DistinctKeys(o.Keys) && k in o && HasTwin(base.Keys, k)
    ensures Twin(base.Keys, k) in base && Found(o, Twin(base.Keys, k)) == Some((k, o[k]))
  {
    hide Lower;
    TwinFacts(base.Keys, k);
    TwinFacts(o.Keys, Twin(base.Keys, k));
  }

  lemma EntryTwin(base: Object, o: Object, key: string)
    requires DistinctKeys(base.Keys) && DistinctKeys(o.Keys) && key in base && Found(o, key).Some?
    ensures var k := Found(o, key).value.0;
      k in o && o[k] == Found(o, key).value.1 && HasTwin(base.Keys, k) && Twin(base.Keys, k) == key
  {
    hide Lower;
    TwinFacts(o.Keys, key);
    TwinFacts(base.Keys, Twin(o.Keys, key));
  }

  lemma {:induction false} ViolationPath(base: Object, override: Json, prefix: string) returns (q: seq<string>)
    requires override.JObj? && Tidy(JObj(base)) && Tidy(override) && Violates(base, override, prefix)
    ensures ChangesProtected(base, override, prefix, q)
    decreases override
  {
    hide Tidy, PROTECTED_PATHS, Found, PathText, Twin, HasTwin;
    TidyParts(base);
    assert JObj(override.fields) == override;
    TidyParts(override.fields);
    var k :| k in override.fields && KeyViolates(base, override, k, prefix);
    var key, v := Twin(base.Keys, k), override.fields[k];
    TwinEntry(base, override.fields, k);
    if Protects(base, PathText(prefix, key), key, v) {
      q := [key];
      assert Sight(override, q) == Sight(v, []) by { assert q[1..] == []; }
    } else {
      assert JObj(base[key].fields) == base[key];
      var q' := ViolationPath(base[key].fields, v, PathText(prefix, key));
      q := [key] + q';
      assert q[1..] == q' && q[0] == key;
    }
  }

  lemma {:induction false} PathViolates(base: Object, override: Json, prefix: string, q: seq<string>)
    requires override.JObj? && Tidy(JObj(base)) && Tidy(override) && ChangesProtected(base, override, prefix, q)
    ensures Violates(base, override, prefix)
    decreases override
  {
    hide Tidy, PROTECTED_PATHS, Found, PathText, Twin, HasTwin;
    TidyParts(base);
    assert JObj(override.fields) == override;
    TidyParts(override.fields);
    var key := q[0];
    EntryTwin(base, override.fields, key);
    var k := Found(override.fields, key).value.0;
    if |q| == 1 {
      assert q[1..] == [] && Sight(override, q) == Sight(override.fields[k], []);
      assert Protects(base, PathText(prefix, key), key, override.fields[k]);
      assert KeyViolates(base, override, k, prefix);
    } else {
      assert JObj(base[key].fields) == base[key];
      assert Sight(override, q) == Sight(override.fields[k], q[1..]) && q[1..] != [];
      PathViolates(base[key].fields, override.fields[k], PathText(prefix, key), q[1..]);
      assert KeyViolates(base, override, k, prefix);
    }
  }

  lemma {:induction false} KeysSnoc(prefix: string, q: seq<string>, k: string)
    requires q != []
    ensures KeysText(prefix, q + [k]) == PathText(KeysText(prefix, q), k)
    decreases |q|
  {
    hide PathText;
    if |q| == 1 {
      assert (q + [k])[1..] == [k];
    } else {
      KeysSnoc(PathText(prefix, q[0]), q[1..], k);
      assert (q + [k])[1..] == q[1..] + [k];
    }
  }

  lemma {:induction false} TextIsDotted(q: seq<string>)
    requires q != []
    ensures KeysText("", q) == Dotted(q)
    decreases |q|
  {
    var front, last := q[..|q| - 1], q[|q| - 1];
    assert q == front + [last];
    if front != [] {
      TextIsDotted(front);
      KeysSnoc("", front, last);
    }
  }

  /** The override says another value where the base has one that is protected. */
  ghost predicate ChangesGuarded(base: Object, override: Json) {
    exists q: seq<string> ::
      && Dotted(q) in {"security.allowRawSecrets", "security.verifyProvenance", "state.authority",
                       "state.snapshotAuthority"}
      && Changes(base, override, q)
  }

  /** An override is refused, for keys distinct ignoring case, exactly when it says another value where the base has
      one of the four protected ones. */
  lemma RefusedOverrideIff(base: Object, override: Json, ord: Order)
    requires override.JObj? && Lists(ord) && Tidy(JObj(base)) && Tidy(override)
    ensures Merged(base, override, "", ord).Failure? <==> ChangesGuarded(base, override)
  {
    hide Merged, DeepMerge, Violates, Changes, Tidy, Lists, KeysText, Dotted;
    MergedMeans(base, override, "", ord);
    if Violates(base, override, "") {
      var q := ViolationPath(base, override, "");
      TextIsDotted(q);
    }
    forall q | q != [] && Dotted(q) in PROTECTED_PATHS && Changes(base, override, q)
      ensures Violates(base, override, "")
    {
      TextIsDotted(q);
      PathViolates(base, override, "", q);
    }
    NoPath();
  }

  lemma NoPath()
    ensures Dotted([]) == "" && "" !in PROTECTED_PATHS
  {
  }

  // ---------------------------------------------------------------- which layers are refused

  /** The layers before it go together, and this one is refused for this. */
  ghost predicate StopsAt(c: Object, layers: seq<Layer>, m: nat, e: AssemblyError)
    requires AllList(layers)
  {
    && m < |layers| && AllList(layers[..m]) && !Empty(layers[m].value)
    && match Assembled(c, layers[..m])
       case Failure(_) => false
       case Success(before) =>
         if e == NotAnObject then !layers[m].value.JObj?
         else layers[m].value.JObj? && ChangesGuarded(before, layers[m].value)
  }

  lemma {:induction false} AssembledStaysTidy(c: Object, layers: seq<Layer>)
    requires AllList(layers) && Tidy(JObj(c)) && TidyLayers(layers)
    ensures Assembled(c, layers).Success? ==> Tidy(JObj(Assembled(c, layers).value))
    decreases |layers|
  {
    hide Merged, Tidy, Lists, DeepMerge, AllList, TidyLayers, Violates;
    if layers != [] {
      LayersSplit(layers);
      var Layer(value, ord) := layers[0];
      if Falsy(value) {
        AssembledStaysTidy(c, layers[1..]);
      } else if value.JObj? {
        MergedMeans(c, value, "", ord);
        MergeStaysTidy(c, value, value.fields.Keys);
        if Merged(c, value, "", ord).Success? {
          AssembledStaysTidy(Merged(c, value, "", ord).value, layers[1..]);
        }
      }
    }
  }

  /** What the last layer does. */
  lemma LastLayer(c: Object, layers: seq<Layer>)
    requires AllList(layers) && Tidy(JObj(c)) && TidyLayers(layers) && layers != []
    ensures var n := |layers| - 1;
      && AllList(layers[..n]) && TidyLayers(layers[..n])
      && (Assembled(c, layers[..n]).Failure? ==> Assembled(c, layers) == Assembled(c, layers[..n]))
      && (Assembled(c, layers[..n]).Success? ==>
            match Assembled(c, layers)
            case Failure(e) => StopsAt(c, layers, n, e)
            case Success(_) => forall e :: !StopsAt(c, layers, n, e))
  {
    hide Merged, Tidy, Lists, ChangesGuarded;
    var n := |layers| - 1;
    var front, last := layers[..n], layers[n];
    assert layers == front + [last] && forall l :: l in front ==> l in layers;
    AssembledAppend(c, front, [last]);
    EmptyMeans(last.value);
    if Assembled(c, front).Success? {
      AssembledStaysTidy(c, front);
      var before := Assembled(c, front).value;
      assert [last][1..] == [];
      if last.value.JObj? {
        RefusedOverrideIff(before, last.value, last.ord);
      }
    }
  }

  lemma EarlierStops(c: Object, layers: seq<Layer>, n: nat, m: nat, e: AssemblyError)
    requires AllList(layers) && m < n <= |layers| && AllList(layers[..n])
    ensures StopsAt(c, layers, m, e) <==> StopsAt(c, layers[..n], m, e)
  {
    hide Assembled, ChangesGuarded, AllList, Empty;
    assert layers[..n][..m] == layers[..m];
  }

  /** For keys distinct ignoring case, an assembly is refused exactly at the first layer that is given and is no object,
      or says another value where those before it have a protected one. */
  lemma {:induction false} RefusedLayersIff(c: Object, layers: seq<Layer>)
    requires AllList(layers) && Tidy(JObj(c)) && TidyLayers(layers)
    ensures match Assembled(c, layers)
      case Failure(e) => exists m: nat :: StopsAt(c, layers, m, e)
      case Success(_) => forall m: nat, e :: !StopsAt(c, layers, m, e)
    decreases |layers|
  {
    hide Assembled, Tidy, AllList, TidyLayers, ChangesGuarded, Empty;
    if layers == [] {
      NothingStops(c);
    } else {
      var n := |layers| - 1;
      LastLayer(c, layers);
      RefusedLayersIff(c, layers[..n]);
      forall m: nat, e | m < n ensures StopsAt(c, layers, m, e) <==> StopsAt(c, layers[..n], m, e) {
        EarlierStops(c, layers, n, m, e);
      }
      hide StopsAt;
      if Assembled(c, layers[..n]).Failure? {
        var e := Assembled(c, layers[..n]).error;
        var m: nat :| StopsAt(c, layers[..n], m, e);
        StopsInside(c, layers[..n], m, e);
      } else {
        forall m: nat, e | StopsAt(c, layers, m, e) ensures m <= n {
          StopsInside(c, layers, m, e);
        }
      }
    }
  }

  lemma StopsInside(c: Object, layers: seq<Layer>, m: nat, e: AssemblyError)
    requires AllList(layers) && StopsAt(c, layers, m, e)
    ensures m < |layers|
  {
  }

  lemma NothingStops(c: Object)
    ensures AllList([]) && Assembled(c, []).Success? && forall m: nat, e :: !StopsAt(c, [], m, e)
  {
  }
}
