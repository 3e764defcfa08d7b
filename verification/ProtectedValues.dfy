/** Exactly when layers leave a given value at a protected path of two keys: a scan of the layers alone
    decides it, for layers whose keys are distinct ignoring case. */
module ProtectedValues {
  import opened Collections
  import opened ConfigLayers
  import opened Json
  import opened Text

  // ---------------------------------------------------------------- finding a key, whatever its case

  /** The entry of an object whose key is `k` or differs from it only in case. */
  ghost function Found(o: Object, k: string): Option<(string, Json)> {
    if HasTwin(o.Keys, k) then
      TwinIn(o.Keys, k);
      Some((Twin(o.Keys, k), o[Twin(o.Keys, k)]))
    else None
  }

  /** In a merge the base's spelling of a key stays, and what both have is combined. */
  lemma FoundInMerge(base: Object, override: Json, k: string)
    requires override.JObj? && DistinctKeys(base.Keys) && DistinctKeys(override.fields.Keys)
    ensures var r := DeepMerge(base, override, override.fields.Keys);
      Found(r, k) ==
        match (Found(base, k), Found(override.fields, k))
        case (None, y) => y
        case (x, None) => x
        case (Some(x), Some(y)) => Some((x.0, Combined(x.1, y.1)))
  {
    hide Lower, Combined;
    var o := override.fields;
    var r := DeepMerge(base, override, o.Keys);
    MergedKeysDistinct(base, override, o.Keys);
    assert r.Keys == base.Keys + (set x | x in o.Keys && !HasTwin(base.Keys, x));
    TwinFacts(base.Keys, k);
    TwinFacts(o.Keys, k);
    TwinFacts(r.Keys, k);
    if HasTwin(base.Keys, k) {
      TwinFacts(o.Keys, Twin(base.Keys, k));
    } else if HasTwin(o.Keys, k) {
      TwinFacts(base.Keys, Twin(o.Keys, k));
    }
  }

  lemma FoundExactly(o: Object, k: string)
    requires DistinctKeys(o.Keys)
    ensures k in o <==> Found(o, k).Some? && Found(o, k).value.0 == k
    ensures k in o ==> Found(o, k).value.1 == o[k]
    ensures Found(o, k).Some? ==> Found(o, k).value.0 in o && o[Found(o, k).value.0] == Found(o, k).value.1
  {
    hide Lower;
    TwinFacts(o.Keys, k);
  }

  // ---------------------------------------------------------------- the scan

  /** Where a configuration stands with a value at section and key: there is no such section yet, it is
      spelled otherwise, it has no such key, it has the value there, or it has something else. */
  datatype Standing = Missing | Misspelled | Gone | Held | Other

  /** What a section says of the value. */
  ghost function Within(section: Json, key: string, v: Json): Standing {
    if !section.JObj? then Gone
    else
      match Found(section.fields, key)
      case None => Gone
      case Some(x) => if x == (key, v) then Held else Other
  }

  ghost function StandingOf(o: Object, section: string, key: string, v: Json): Standing {
    match Found(o, section)
    case None => Missing
    case Some(x) => if x.0 == section then Within(x.1, key, v) else Misspelled
  }

  /** What one layer does: nothing without the section; a first section decides by its spelling and content;
      a section that is no object takes the value away, and after that the next object decides again. */
  ghost function After(standing: Standing, layer: Json, section: string, key: string, v: Json): Standing {
    if !layer.JObj? then standing
    else
      match Found(layer.fields, section)
      case None => standing
      case Some(x) =>
        if standing == Missing then if x.0 == section then Within(x.1, key, v) else Misspelled
        else if standing == Misspelled then Misspelled
        else if !x.1.JObj? then Gone
        else if standing == Gone then Within(x.1, key, v)
        else standing
  }

  ghost function Scan(standing: Standing, layers: seq<Layer>, section: string, key: string, v: Json): Standing
    decreases |layers|
  {
    if layers == [] then standing
    else Scan(After(standing, layers[0].value, section, key, v), layers[1..], section, key, v)
  }

  lemma HeldMeans(o: Object, section: string, key: string, v: Json)
    requires Tidy(JObj(o))
    ensures StandingOf(o, section, key, v) == Held <==> Lookup(o, [section, key]) == Some(v)
  {
    hide Found, Tidy;
    TidyParts(o);
    FoundExactly(o, section);
    assert [section, key][1..] == [key];
    if section in o && o[section].JObj? {
      assert JObj(o[section].fields) == o[section];
      TidyParts(o[section].fields);
      FoundExactly(o[section].fields, key);
    }
  }

  // ---------------------------------------------------------------- one merge

  /** A section onto a section: the object that is there keeps what it says of the protected value, and one
      that says nothing, or is none, takes over what the layer says. */
  lemma SectionMerged(a: Json, b: Json, section: string, key: string, v: Json)
    requires Tidy(a) && Tidy(b) && PathText(section, key) in PROTECTED_PATHS
    requires a.JObj? && b.JObj? ==> !Violates(a.fields, b, section)
    ensures Within(Combined(a, b), key, v)
         == if !b.JObj? then Gone else if Within(a, key, v) == Gone then Within(b, key, v) else Within(a, key, v)
  {
    hide Found, Tidy, DeepMerge, Violates, Combined, PROTECTED_PATHS;
    CombinedCases(a, b);
    if a.JObj? && b.JObj? {
      assert JObj(a.fields) == a && JObj(b.fields) == b;
      TidyParts(a.fields);
      TidyParts(b.fields);
      FoundInMerge(a.fields, b, key);
      FoundExactly(a.fields, key);
      if Found(a.fields, key).Some? && Found(b.fields, key).Some? && key in a.fields {
        ProtectedMeets(a.fields, b, section, key);
      }
    }
  }

  /** Where base and override both have the key of a protected path, they have the same value. */
  lemma ProtectedMeets(base: Object, override: Json, section: string, key: string)
    requires override.JObj? && Tidy(JObj(base)) && Tidy(override) && !Violates(base, override, section)
    requires key in base && Found(override.fields, key).Some? && PathText(section, key) in PROTECTED_PATHS
    ensures Found(override.fields, key).value.1 == base[key]
    ensures Combined(base[key], Found(override.fields, key).value.1) == base[key]
  {
    hide Lower, Tidy, Violates, Combined, PROTECTED_PATHS;
    NoViolationAt(base, override, section, key);
    SelfMerge(base[key]);
  }

  /** One merge changes the standing exactly as the scan says. */
  lemma MergeMeansAfter(base: Object, override: Json, section: string, key: string, v: Json)
    requires override.JObj? && Tidy(JObj(base)) && Tidy(override) && !Violates(base, override, "")
    requires section != "" && PathText(section, key) in PROTECTED_PATHS
    ensures StandingOf(DeepMerge(base, override, override.fields.Keys), section, key, v)
         == After(StandingOf(base, section, key, v), override, section, key, v)
  {
    hide Found, Tidy, DeepMerge, Violates, Combined, PROTECTED_PATHS, Within;
    TidyParts(base);
    TidyParts(override.fields);
    assert JObj(override.fields) == override;
    FoundInMerge(base, override, section);
    FoundExactly(base, section);
    if section in base && Found(override.fields, section).Some? {
      var w := Found(override.fields, section).value.1;
      SectionsMeet(base, override, section);
      SectionMerged(base[section], w, section, key, v);
      WithinIsInside(base[section], key, v);
    }
  }

  lemma WithinIsInside(section: Json, key: string, v: Json)
    ensures Within(section, key, v) in {Gone, Held, Other}
  {
    hide Found;
  }

  lemma SectionsMeet(base: Object, override: Json, section: string)
    requires override.JObj? && Tidy(JObj(base)) && Tidy(override) && !Violates(base, override, "")
    requires section in base && Found(override.fields, section).Some?
    ensures var w := Found(override.fields, section).value.1;
      && Tidy(base[section]) && Tidy(w)
      && (w.JObj? && base[section].JObj? ==> !Violates(base[section].fields, w, section))
  {
    hide Lower, Tidy, Violates;
    NoViolationAt(base, override, "", section);
  }

  // ---------------------------------------------------------------- all the layers

  /** Whatever a configuration and the layers after it say: where an assembly that succeeds stands with a
      protected value is what the scan of the layers comes to. */
  lemma {:induction false} AssemblyScans(
    configuration: Object, layers: seq<Layer>, section: string, key: string, v: Json)
    requires AllList(layers) && Tidy(JObj(configuration)) && TidyLayers(layers)
    requires section != "" && PathText(section, key) in PROTECTED_PATHS
    ensures var r := Assembled(configuration, layers);
      r.Success? ==>
        && Tidy(JObj(r.value))
        && StandingOf(r.value, section, key, v)
           == Scan(StandingOf(configuration, section, key, v), layers, section, key, v)
    decreases |layers|
  {
    hide Merged, Tidy, Lists, Violates, DeepMerge, AllList, TidyLayers, StandingOf, After, PROTECTED_PATHS;
    if layers == [] {
    } else {
      LayersSplit(layers);
      var Layer(value, ord) := layers[0];
      if Falsy(value) {
        FalsyChangesNothing(StandingOf(configuration, section, key, v), value, section, key, v);
        AssemblyScans(configuration, layers[1..], section, key, v);
      } else if value.JObj? {
        MergedMeans(configuration, value, "", ord);
        if Merged(configuration, value, "", ord).Success? {
          MergeMeansAfter(configuration, value, section, key, v);
          MergeStaysTidy(configuration, value, value.fields.Keys);
          AssemblyScans(Merged(configuration, value, "", ord).value, layers[1..], section, key, v);
        }
      }
    }
  }

  lemma FalsyChangesNothing(standing: Standing, layer: Json, section: string, key: string, v: Json)
    requires Falsy(layer)
    ensures After(standing, layer, section, key, v) == standing
  {
  }

  /** An assembly that succeeds has the value at a protected path exactly when the scan ends in held. So a
      value the configuration has stays exactly when the scan of the later layers, begun at held, ends there. */
  lemma AssemblyHasProtectedIff(configuration: Object, layers: seq<Layer>, section: string, key: string, v: Json)
    requires AllList(layers) && Tidy(JObj(configuration)) && TidyLayers(layers)
    requires section != "" && PathText(section, key) in PROTECTED_PATHS
    ensures var r := Assembled(configuration, layers);
      r.Success? ==>
        && (Lookup(r.value, [section, key]) == Some(v)
            <==> Scan(StandingOf(configuration, section, key, v), layers, section, key, v) == Held)
        && (Lookup(configuration, [section, key]) == Some(v) ==>
              (Lookup(r.value, [section, key]) == Some(v) <==> Scan(Held, layers, section, key, v) == Held))
  {
    hide Assembled, Tidy, AllList, TidyLayers, StandingOf, Scan, PROTECTED_PATHS, Lookup;
    AssemblyScans(configuration, layers, section, key, v);
    HeldMeans(configuration, section, key, v);
    if Assembled(configuration, layers).Success? {
      HeldMeans(Assembled(configuration, layers).value, section, key, v);
    }
  }
}
