/** Assembling a runtime: a profile is checked, its configuration is layered with defaults, project,
    environment and command line, and what comes out is checked again. */
module RuntimeProfiles {
  import opened Collections
  import opened ConfigLayers
  import opened EnvironmentOverrides
  import opened Json
  import opened ProtectedValues
  import opened Text
  import EnvironmentEngine

  const COMPONENTS: set<string> :=
    {"liaison", "project_lead", "scheduler", "worker", "state", "artifacts", "credential_broker", "telemetry"}

  const SECRET_TERMS: set<string> := {"password", "secret", "token", "api_key", "apikey", "credential"}

  const REFERENCE_PREFIXES: set<string> := {"env://", "file://", "broker://"}

  const LABELS := ["defaults", "profile", "project", "environment", "command_line"]

  datatype ProfileKind = Local | Team | Hosted | Production

  datatype Profile = Profile(
    schemaVersion: string, profileId: string, kind: ProfileKind, description: string, components: seq<string>,
    configuration: Json)

  datatype Runtime = Runtime(
    profileId: string, kind: ProfileKind, configuration: Object, digest: string, sources: seq<string>)

  datatype Refusal =
    InvalidProfile | InvalidEnvironment(override: OverrideError) | InvalidLayer(layer: AssemblyError) | InvalidAssembly

  // ---------------------------------------------------------------- the checks

  /** A setting in a section of the configuration, if the section is an object that has it. */
  function Setting(o: Object, section: string, key: string): Json {
    if Field(o, section).JObj? then Field(Field(o, section).fields, key) else JNull
  }

  predicate StandsAt(s: string, term: string, i: nat) {
    i + |term| <= |s| && s[i..i + |term|] == term
  }

  predicate Contains(s: string, term: string) {
    exists i :: 0 <= i <= |s| && StandsAt(s, term, i)
  }

  function Normalized(path: string): string {
    Lower(seq(|path|, i requires 0 <= i < |path| => if path[i] == '-' then '_' else path[i]))
  }

  predicate NamesSecret(path: string) {
    exists term :: term in SECRET_TERMS && Contains(Normalized(path), term)
  }

  predicate IsReference(v: Json) {
    v.JStr? && exists p :: p in REFERENCE_PREFIXES && p <= v.s
  }

  /** A value under a secret's name is nothing or a reference; the one protected flag excepted. */
  predicate GivesNoSecret(path: string, v: Json) {
    NamesSecret(path) && v != JNull && path != "security.allowRawSecrets" ==> IsReference(v)
  }

  /** Below `v`, whatever a secret's name is given to is a reference or nothing. */
  predicate HoldsNoSecret(v: Json, path: string)
    decreases v
  {
    match v
    case JObj(fields) =>
      forall k :: k in fields ==>
        GivesNoSecret(PathText(path, k), fields[k]) && HoldsNoSecret(fields[k], PathText(path, k))
    case JArr(items) => forall i :: 0 <= i < |items| ==> HoldsNoSecret(items[i], path + "[" + Decimal(i) + "]")
    case _ => true
  }

  predicate ReadyForProduction(components: seq<string>, configuration: Object) {
    && (forall c :: c in COMPONENTS ==> c in components)
    && Setting(configuration, "security", "verifyProvenance") == JBool(true)
    && Setting(configuration, "telemetry", "enabled") == JBool(true)
    && Setting(configuration, "recovery", "restoreTestsRequired") == JBool(true)
  }

  predicate ValidProfile(p: Profile) {
    && !Blank(p.schemaVersion) && !Blank(p.profileId) && !Blank(p.description)
    && p.components != [] && (forall c :: c in p.components ==> c in COMPONENTS) && NoDuplicates(p.components)
    && p.configuration.JObj?
    && Setting(p.configuration.fields, "state", "authority") == JStr("state.db")
    && Setting(p.configuration.fields, "state", "snapshotAuthority") == JBool(false)
    && Setting(p.configuration.fields, "security", "allowRawSecrets") == JBool(false)
    && (p.kind == Production ==> ReadyForProduction(p.components, p.configuration.fields))
    && HoldsNoSecret(p.configuration, "")
  }

  // ---------------------------------------------------------------- the assembly

  /** What a runtime is assembled from besides its profile; a layer that is not given is `JNull`. */
  datatype Surroundings = Surroundings(
    defaults: Json, project: Json, environment: map<string, string>, commandLine: Json)

  /** How the dictionaries of each layer list their keys. */
  datatype Orders = Orders(defaults: Order, profile: Order, project: Order, environment: Order, commandLine: Order)

  ghost predicate OrdersList(ords: Orders) {
    && Lists(ords.defaults) && Lists(ords.profile) && Lists(ords.project) && Lists(ords.environment)
    && Lists(ords.commandLine)
  }

  /** What there is before the layers behind the profile, and those. */
  function FirstLayers(p: Profile, x: Surroundings, ords: Orders): seq<Layer> {
    [Layer(x.defaults, ords.defaults), Layer(p.configuration, ords.profile)]
  }

  function LaterLayers(x: Surroundings, overrides: Object, ords: Orders): seq<Layer> {
    [Layer(x.project, ords.project), Layer(JObj(overrides), ords.environment), Layer(x.commandLine, ords.commandLine)]
  }

  function LayersOf(p: Profile, x: Surroundings, overrides: Object, ords: Orders): seq<Layer> {
    FirstLayers(p, x, ords) + LaterLayers(x, overrides, ords)
  }

  lemma LayersList(p: Profile, x: Surroundings, overrides: Object, ords: Orders)
    requires OrdersList(ords)
    ensures AllList(FirstLayers(p, x, ords)) && AllList(LaterLayers(x, overrides, ords))
    ensures AllList(LayersOf(p, x, overrides, ords))
  {
    hide Lists;
  }

  ghost function RuntimeOf(p: Profile, x: Surroundings, parse: string -> Json, hash: Object -> string, ords: Orders):
    Result<Runtime, Refusal>
    requires OrdersList(ords)
  {
    if !ValidProfile(p) then Failure(InvalidProfile)
    else
      match Overrides(x.environment, "V3__", parse)
      case Failure(e) => Failure(InvalidEnvironment(e))
      case Success(overrides) =>
        LayersList(p, x, overrides, ords);
        match Assembled(map[], LayersOf(p, x, overrides, ords))
        case Failure(e) => Failure(InvalidLayer(e))
        case Success(configuration) =>
          if !ValidProfile(p.(configuration := JObj(configuration))) then Failure(InvalidAssembly)
          else
            Success(Runtime(p.profileId, p.kind, configuration, hash(configuration),
                            SourcesOf(LABELS, LayersOf(p, x, overrides, ords))))
  }

  /** The whole assembly. */
  method AssembleRuntime(p: Profile, x: Surroundings, parse: string -> Json, hash: Object -> string, ords: Orders)
    returns (r: Result<Runtime, Refusal>)
    requires OrdersList(ords)
    ensures r == RuntimeOf(p, x, parse, hash, ords)
  {
    hide ValidProfile, Lists, Overrides, Assembled, SourcesOf;
    if !ValidProfile(p) { return Failure(InvalidProfile); }
    var overrides := EnvironmentEngine.ReadEnvironment(x.environment, "V3__", parse);
    if overrides.Failure? { return Failure(InvalidEnvironment(overrides.error)); }
    LayersList(p, x, overrides.value, ords);
    var assembled, sources := Assemble(LABELS, LayersOf(p, x, overrides.value, ords));
    if assembled.Failure? { return Failure(InvalidLayer(assembled.error)); }
    var configuration := assembled.value;
    if !ValidProfile(p.(configuration := JObj(configuration))) { return Failure(InvalidAssembly); }
    r := Success(Runtime(p.profileId, p.kind, configuration, hash(configuration), sources));
  }

  // ---------------------------------------------------------------- what is protected for good

  const PROVENANCE := ["security", "verifyProvenance"]

  const ALWAYS_KEPT := [["state", "authority"], ["state", "snapshotAuthority"], ["security", "allowRawSecrets"]]

  lemma SettingIsLookup(o: Object, section: string, key: string)
    ensures Setting(o, section, key) != JNull ==> Lookup(o, [section, key]) == Some(Setting(o, section, key))
  {
    var q := [section, key];
    assert q[1..] == [key];
  }

  /** The required values of a checked profile, as paths. */
  lemma RequiredValues(p: Profile)
    requires ValidProfile(p)
    ensures p.configuration.JObj?
    ensures Lookup(p.configuration.fields, ["state", "authority"]) == Some(JStr("state.db"))
    ensures Lookup(p.configuration.fields, ["state", "snapshotAuthority"]) == Some(JBool(false))
    ensures Lookup(p.configuration.fields, ["security", "allowRawSecrets"]) == Some(JBool(false))
    ensures p.kind == Production ==> Lookup(p.configuration.fields, PROVENANCE) == Some(JBool(true))
  {
    hide Lookup, Blank, HoldsNoSecret, NoDuplicates, Setting;
    SettingIsLookup(p.configuration.fields, "state", "authority");
    SettingIsLookup(p.configuration.fields, "state", "snapshotAuthority");
    SettingIsLookup(p.configuration.fields, "security", "allowRawSecrets");
    SettingIsLookup(p.configuration.fields, "security", "verifyProvenance");
  }

  /** What defaults and profile come to. */
  ghost function Begun(p: Profile, x: Surroundings, ords: Orders): Result<Object, AssemblyError>
    requires OrdersList(ords)
  {
    LayersList(p, x, map[], ords);
    Assembled(map[], FirstLayers(p, x, ords))
  }

  /** The overrides of an environment that is not refused. */
  function OverridesOf(x: Surroundings, parse: string -> Json): Object {
    match Overrides(x.environment, "V3__", parse)
    case Success(overrides) => overrides
    case Failure(_) => map[]
  }

  /** The steps of an assembly that succeeds. */
  lemma RuntimeSteps(p: Profile, x: Surroundings, parse: string -> Json, hash: Object -> string, ords: Orders)
    requires OrdersList(ords) && RuntimeOf(p, x, parse, hash, ords).Success?
    ensures ValidProfile(p) && Begun(p, x, ords).Success?
    ensures AllList(LayersOf(p, x, OverridesOf(x, parse), ords)) && AllList(LaterLayers(x, OverridesOf(x, parse), ords))
    ensures var after := RuntimeOf(p, x, parse, hash, ords).value.configuration;
      && ValidProfile(p.(configuration := JObj(after)))
      && Assembled(map[], LayersOf(p, x, OverridesOf(x, parse), ords)) == Success(after)
      && Assembled(Begun(p, x, ords).value, LaterLayers(x, OverridesOf(x, parse), ords)) == Success(after)
  {
    hide ValidProfile, Overrides, Assembled, Lists, AllList, SourcesOf, FirstLayers, LaterLayers;
    var overrides := OverridesOf(x, parse);
    LayersList(p, x, overrides, ords);
    AssembledAppend(map[], FirstLayers(p, x, ords), LaterLayers(x, overrides, ords));
  }

  /** A returned runtime has the profile's own value at three of the four protected paths, whatever the
      layers do, and in production at the fourth. Elsewhere, and whatever the keys of the layers, the fourth
      stays what defaults and profile made it as long as the layers behind them put only objects above it. */
  lemma ProtectedValuesOfARuntime(
    p: Profile, x: Surroundings, parse: string -> Json, hash: Object -> string, ords: Orders)
    requires OrdersList(ords) && RuntimeOf(p, x, parse, hash, ords).Success?
    ensures p.configuration.JObj? && Begun(p, x, ords).Success?
    ensures var before, after := p.configuration.fields, RuntimeOf(p, x, parse, hash, ords).value.configuration;
      && (forall q :: q in ALWAYS_KEPT ==> Lookup(after, q).Some? && Lookup(after, q) == Lookup(before, q))
      && (p.kind == Production ==> Lookup(after, PROVENANCE) == Lookup(before, PROVENANCE) == Some(JBool(true)))
    ensures var begun, after := Begun(p, x, ords).value, RuntimeOf(p, x, parse, hash, ords).value.configuration;
      (Lookup(begun, PROVENANCE).Some? && OnlyObjectsAbove(LaterLayers(x, OverridesOf(x, parse), ords), PROVENANCE)) ==>
        Lookup(after, PROVENANCE) == Lookup(begun, PROVENANCE)
  {
    hide ValidProfile, OverridesOf, Assembled, Lists, AllList, Lookup, RuntimeOf, Begun, OnlyObjectsAbove, LaterLayers;
    RuntimeSteps(p, x, parse, hash, ords);
    var after := RuntimeOf(p, x, parse, hash, ords).value.configuration;
    RequiredValues(p);
    RequiredValues(p.(configuration := JObj(after)));
    var begun := Begun(p, x, ords).value;
    var later := LaterLayers(x, OverridesOf(x, parse), ords);
    ProvenanceIsProtected();
    if Lookup(begun, PROVENANCE).Some? && OnlyObjectsAbove(later, PROVENANCE) {
      AssemblyKeepsProtected(begun, later, PROVENANCE);
    }
  }

  /** For layers whose keys are distinct ignoring case: a returned runtime has the flag `v` exactly when the
      scan of its five layers ends in held. So the profile's own flag is kept exactly when the scan for it does,
      and what defaults and profile made of it exactly when the scan of the three layers behind them does. */
  lemma ProvenanceIsKeptIff(
    p: Profile, x: Surroundings, parse: string -> Json, hash: Object -> string, ords: Orders, v: Json)
    requires OrdersList(ords) && RuntimeOf(p, x, parse, hash, ords).Success?
    requires TidyLayers(LayersOf(p, x, OverridesOf(x, parse), ords))
    ensures p.configuration.JObj? && Begun(p, x, ords).Success?
    ensures var after := RuntimeOf(p, x, parse, hash, ords).value.configuration;
      && (Lookup(after, PROVENANCE) == Some(v) <==>
            Scan(Missing, LayersOf(p, x, OverridesOf(x, parse), ords), "security", "verifyProvenance", v) == Held)
      && (Lookup(Begun(p, x, ords).value, PROVENANCE) == Some(v) ==>
            (Lookup(after, PROVENANCE) == Some(v) <==>
               Scan(Held, LaterLayers(x, OverridesOf(x, parse), ords), "security", "verifyProvenance", v) == Held))
  {
    hide ValidProfile, OverridesOf, Assembled, Lists, AllList, Lookup, RuntimeOf, OnlyObjectsAbove, TidyLayers, Tidy,
      Scan, StandingOf, FirstLayers, LaterLayers;
    RuntimeSteps(p, x, parse, hash, ords);
    ConfigurationIs(p);
    ProvenanceIsProtected();
    var overrides := OverridesOf(x, parse);
    LayersList(p, x, overrides, ords);
    EmptyIsMissing("security", "verifyProvenance", v);
    AssemblyHasProtectedIff(map[], LayersOf(p, x, overrides, ords), "security", "verifyProvenance", v);
    TidyAppend(FirstLayers(p, x, ords), LaterLayers(x, overrides, ords));
    AssemblyScans(map[], FirstLayers(p, x, ords), "security", "verifyProvenance", v);
    var begun := Begun(p, x, ords).value;
    AssemblyHasProtectedIff(begun, LaterLayers(x, overrides, ords), "security", "verifyProvenance", v);
  }

  lemma ConfigurationIs(p: Profile)
    requires ValidProfile(p)
    ensures p.configuration.JObj?
  {
    hide HoldsNoSecret, Blank, NoDuplicates;
  }

  lemma EmptyIsMissing(section: string, key: string, v: Json)
    ensures Tidy(JObj(map[])) && StandingOf(map[], section, key, v) == Missing
  {
  }

  lemma TidyAppend(layers: seq<Layer>, more: seq<Layer>)
    requires TidyLayers(layers + more)
    ensures TidyLayers(layers) && TidyLayers(more)
  {
    hide Tidy;
    forall l | l in layers || l in more ensures l in layers + more {
    }
  }

  lemma ProvenanceIsProtected()
    ensures KeysText("", PROVENANCE) in PROTECTED_PATHS
    ensures PathText("security", "verifyProvenance") in PROTECTED_PATHS
  {
    assert PROVENANCE[1..] == ["verifyProvenance"];
    assert "security" + "." + "verifyProvenance" == "security.verifyProvenance";
  }

  // ---------------------------------------------------------------- secrets

  /** One step down: to a key of an object, or to an item of a list. */
  datatype Part = Key(key: string) | Index(index: nat)

  function At(v: Json, path: seq<Part>): Option<Json>
    decreases |path|
  {
    if path == [] then Some(v)
    else
      match path[0]
      case Key(k) => if v.JObj? && k in v.fields then At(v.fields[k], path[1..]) else None
      case Index(i) => if v.JArr? && i < |v.items| then At(v.items[i], path[1..]) else None
  }

  function PartText(prefix: string, part: Part): string {
    match part
    case Key(k) => PathText(prefix, k)
    case Index(i) => prefix + "[" + Decimal(i) + "]"
  }

  function PartsText(prefix: string, path: seq<Part>): string
    decreases |path|
  {
    if path == [] then prefix else PartsText(PartText(prefix, path[0]), path[1..])
  }

  /** If the path ends in a key and there is something, that is no secret. */
  ghost predicate SafeAt(v: Json, prefix: string, path: seq<Part>) {
    path != [] && path[|path| - 1].Key? && At(v, path).Some? ==>
      GivesNoSecret(PartsText(prefix, path), At(v, path).value)
  }

  ghost predicate SafeBelow(v: Json, prefix: string) {
    forall path: seq<Part> :: SafeAt(v, prefix, path)
  }

  /** A path below a child, as a path below the whole. */
  lemma SafeDown(v: Json, prefix: string, part: Part, path: seq<Part>)
    requires path != [] && At(v, [part]).Some?
    ensures SafeAt(v, prefix, [part] + path) <==> SafeAt(At(v, [part]).value, PartText(prefix, part), path)
  {
    hide GivesNoSecret, PartText;
    var longer := [part] + path;
    assert longer[1..] == path && longer[|longer| - 1] == path[|path| - 1] && [part][1..] == [];
  }

  lemma SafeHere(v: Json, prefix: string, k: string)
    requires v.JObj? && k in v.fields
    ensures SafeAt(v, prefix, [Key(k)]) <==> GivesNoSecret(PathText(prefix, k), v.fields[k])
  {
    hide GivesNoSecret, PathText;
    var path := [Key(k)];
    assert path[1..] == [];
    assert At(v, path) == At(v.fields[k], []) && PartsText(prefix, path) == PartsText(PathText(prefix, k), []);
  }

  /** The children of a value: what one step leads to. */
  lemma {:induction false} SafeStep(v: Json, prefix: string)
    ensures SafeBelow(v, prefix) <==>
      && (v.JObj? ==> forall k :: k in v.fields ==>
            GivesNoSecret(PathText(prefix, k), v.fields[k]) && SafeBelow(v.fields[k], PathText(prefix, k)))
      && (v.JArr? ==> forall i :: 0 <= i < |v.items| ==>
            SafeBelow(v.items[i], prefix + "[" + Decimal(i) + "]"))
  {
    hide GivesNoSecret, PathText, Decimal, SafeAt;
    if SafeBelow(v, prefix) {
      ChildrenAreSafe(v, prefix);
    } else {
      var path :| !SafeAt(v, prefix, path);
      UnsafeChild(v, prefix, path);
    }
  }

  lemma ChildrenAreSafe(v: Json, prefix: string)
    requires SafeBelow(v, prefix)
    ensures v.JObj? ==> forall k :: k in v.fields ==>
      GivesNoSecret(PathText(prefix, k), v.fields[k]) && SafeBelow(v.fields[k], PathText(prefix, k))
    ensures v.JArr? ==> forall i :: 0 <= i < |v.items| ==> SafeBelow(v.items[i], prefix + "[" + Decimal(i) + "]")
  {
    hide GivesNoSecret, PathText, Decimal, SafeAt;
    if v.JObj? {
      forall k | k in v.fields
        ensures GivesNoSecret(PathText(prefix, k), v.fields[k]) && SafeBelow(v.fields[k], PathText(prefix, k))
      {
        SafeHere(v, prefix, k);
        ChildIsSafe(v, prefix, Key(k));
      }
    }
    if v.JArr? {
      forall i | 0 <= i < |v.items| ensures SafeBelow(v.items[i], prefix + "[" + Decimal(i) + "]") {
        ChildIsSafe(v, prefix, Index(i));
      }
    }
  }

  lemma ChildIsSafe(v: Json, prefix: string, part: Part)
    requires SafeBelow(v, prefix)
    requires match part { case Key(k) => v.JObj? && k in v.fields case Index(i) => v.JArr? && i < |v.items| }
    ensures At(v, [part]) == Some(if part.Key? then v.fields[part.key] else v.items[part.index])
    ensures SafeBelow(At(v, [part]).value, PartText(prefix, part))
  {
    hide PartText, SafeAt;
    assert [part][1..] == [];
    var child := if part.Key? then v.fields[part.key] else v.items[part.index];
    assert At(child, []) == Some(child);
    forall path: seq<Part> ensures SafeAt(At(v, [part]).value, PartText(prefix, part), path) {
      if path == [] {
        EmptyIsSafe(At(v, [part]).value, PartText(prefix, part));
      } else {
        SafeDown(v, prefix, part, path);
      }
    }
  }

  lemma EmptyIsSafe(v: Json, prefix: string)
    ensures SafeAt(v, prefix, [])
  {
  }

  /** Some child of an object is a secret, or holds one; some item of a list holds one. */
  ghost predicate UnsafeField(v: Json, prefix: string) {
    v.JObj?
    && exists k :: k in v.fields && !(GivesNoSecret(PathText(prefix, k), v.fields[k])
                                      && SafeBelow(v.fields[k], PathText(prefix, k)))
  }

  ghost predicate UnsafeItem(v: Json, prefix: string) {
    v.JArr? && exists i :: 0 <= i < |v.items| && !SafeBelow(v.items[i], prefix + "[" + Decimal(i) + "]")
  }

  /** A path that is not safe leads to a child that is not. */
  lemma UnsafeChild(v: Json, prefix: string, path: seq<Part>)
    requires !SafeAt(v, prefix, path)
    ensures UnsafeField(v, prefix) || UnsafeItem(v, prefix)
  {
    hide GivesNoSecret, PathText, Decimal;
    var part, rest := path[0], path[1..];
    assert path == [part] + rest && [part][1..] == [];
    if rest == [] {
      SafeHere(v, prefix, part.key);
      assert part.key in v.fields && !GivesNoSecret(PathText(prefix, part.key), v.fields[part.key]);
    } else {
      SafeDown(v, prefix, part, rest);
      var child := At(v, [part]).value;
      assert !SafeBelow(child, PartText(prefix, part));
      match part {
        case Key(k) => assert k in v.fields && !SafeBelow(v.fields[k], PathText(prefix, k));
        case Index(i) => assert !SafeBelow(v.items[i], prefix + "[" + Decimal(i) + "]");
      }
    }
  }

  /** The recursive walk accepts exactly the values in which, through objects and lists, no path that ends in
      a key leads to a secret. */
  lemma {:induction false} HoldsNoSecretIff(v: Json, prefix: string)
    ensures HoldsNoSecret(v, prefix) <==> SafeBelow(v, prefix)
    decreases v
  {
    hide GivesNoSecret, PathText, Decimal, SafeBelow;
    SafeStep(v, prefix);
    match v {
      case JObj(fields) =>
        forall k | k in fields
          ensures HoldsNoSecret(fields[k], PathText(prefix, k)) <==> SafeBelow(fields[k], PathText(prefix, k))
        {
          HoldsNoSecretIff(fields[k], PathText(prefix, k));
        }
      case JArr(items) =>
        forall i | 0 <= i < |items|
          ensures HoldsNoSecret(items[i], prefix + "[" + Decimal(i) + "]")
             <==> SafeBelow(items[i], prefix + "[" + Decimal(i) + "]")
        {
          HoldsNoSecretIff(items[i], prefix + "[" + Decimal(i) + "]");
        }
      case _ =>
    }
  }

  /** The checks of a profile accept only configurations without secrets. */
  lemma ProfileHoldsNoSecret(p: Profile)
    requires ValidProfile(p)
    ensures SafeBelow(p.configuration, "")
  {
    hide HoldsNoSecret, SafeBelow;
    HoldsNoSecretIff(p.configuration, "");
  }

  /** In a returned runtime, whatever layer it came from, a setting at any depth, inside lists as well, whose
      path names a secret is nothing or a reference, except the flag that forbids raw secrets. */
  lemma RuntimeHoldsOnlyReferences(
    p: Profile, x: Surroundings, parse: string -> Json, hash: Object -> string, ords: Orders, path: seq<Part>)
    requires OrdersList(ords) && RuntimeOf(p, x, parse, hash, ords).Success?
    requires path != [] && path[|path| - 1].Key?
    ensures var setting := At(JObj(RuntimeOf(p, x, parse, hash, ords).value.configuration), path);
      var text := PartsText("", path);
      setting.Some? && NamesSecret(text) && text != "security.allowRawSecrets" ==>
        setting.value == JNull || IsReference(setting.value)
  {
    hide OverridesOf, Assembled, OrdersList, At, PartsText, NamesSecret, IsReference, RuntimeOf, ValidProfile, Begun,
      AllList, LayersOf, LaterLayers;
    RuntimeSteps(p, x, parse, hash, ords);
    var after := JObj(RuntimeOf(p, x, parse, hash, ords).value.configuration);
    ProfileHoldsNoSecret(p.(configuration := after));
    assert SafeAt(after, "", path);
  }

  // ---------------------------------------------------------------- provenance lost outside production

  const STATE := JObj(map["authority" := JStr("state.db"), "snapshotAuthority" := JBool(false)])

  const TEAM_SECURITY := JObj(map["allowRawSecrets" := JBool(false), "verifyProvenance" := JBool(true)])

  const BARE_SECURITY := JObj(map["allowRawSecrets" := JBool(false)])

  const TEAM_PROFILE := Profile("0.1", "team", Team, "A team", ["state"],
                                JObj(map["state" := STATE, "security" := TEAM_SECURITY]))

  /** The project turns the security section into text, the command line back into an object. */
  const DETOUR := Surroundings(
    JNull, JObj(map["security" := JStr("off")]), map[], JObj(map["security" := BARE_SECURITY]))

  lemma LettersOf(path: string, c: char)
    requires 'a' <= c <= 'z' && c !in path && (c as int - 32) as char !in path
    ensures c !in Normalized(path)
  {
  }

  lemma HasItsLetters(s: string, term: string, c: char)
    requires c in term && Contains(s, term)
    ensures c in s
  {
    var i :| 0 <= i <= |s| && StandsAt(s, term, i);
    assert c in s[i..i + |term|];
  }

  lemma NotIn(s: string, term: string, c: char)
    requires c in term && c !in s
    ensures !Contains(s, term)
  {
    hide Contains;
    if Contains(s, term) { HasItsLetters(s, term, c); }
  }

  /** Without the letters d and k only one term is left. */
  lemma OnlyTheWordSecret(path: string)
    requires 'd' !in path && 'D' !in path && 'k' !in path && 'K' !in path
    requires !Contains(Normalized(path), "secret")
    ensures !NamesSecret(path)
  {
    hide Normalized, Contains;
    LettersOf(path, 'd');
    LettersOf(path, 'k');
    NotIn(Normalized(path), "password", 'd');
    NotIn(Normalized(path), "credential", 'd');
    NotIn(Normalized(path), "token", 'k');
    NotIn(Normalized(path), "api_key", 'k');
    NotIn(Normalized(path), "apikey", 'k');
  }

  lemma StateLetters(path: string)
    requires path == "state" || path == "state.authority" || path == "state.snapshotAuthority"
    ensures forall c :: c in path ==> c !in "cCdDkK"
  {
    if path == "state" {
    } else if path == "state.authority" {
    } else {
    }
  }

  lemma StatePathsNameNone(path: string)
    requires path == "state" || path == "state.authority" || path == "state.snapshotAuthority"
    ensures !NamesSecret(path)
  {
    StateLetters(path);
    hide Normalized, Contains, NamesSecret;
    LettersOf(path, 'c');
    NotIn(Normalized(path), "secret", 'c');
    OnlyTheWordSecret(path);
  }

  lemma SecretAt(s: string, i: nat)
    requires StandsAt(s, "secret", i)
    ensures i + 6 <= |s| && s[i] == 's' && s[i + 3] == 'r'
  {
    assert s[i] == s[i..i + 6][0] && s[i + 3] == s[i..i + 6][3];
  }

  lemma SecurityLetters(path: string)
    requires path == "security" || path == "security.verifyProvenance"
    ensures |path| >= 4 && path[3] == 'u' && forall c :: c in path ==> c !in "dDkK"
    ensures forall i :: 0 < i < |path| ==> path[i] != 's' && path[i] != 'S'
  {
    if path == "security" {
    } else {
    }
  }

  lemma NormalizedAt(path: string, i: nat)
    requires i < |path|
    ensures |Normalized(path)| == |path|
    ensures path[i] != 's' && path[i] != 'S' ==> Normalized(path)[i] != 's'
    ensures path[i] == 'u' ==> Normalized(path)[i] == 'u'
  {
  }

  lemma SecurityPathsNameNone(path: string)
    requires path == "security" || path == "security.verifyProvenance"
    ensures !NamesSecret(path)
  {
    SecurityLetters(path);
    hide Normalized, StandsAt, NamesSecret;
    var s := Normalized(path);
    NormalizedAt(path, 3);
    forall i: nat | i <= |s| ensures !StandsAt(s, "secret", i) {
      if StandsAt(s, "secret", i) {
        SecretAt(s, i);
        NormalizedAt(path, i);
      }
    }
    OnlyTheWordSecret(path);
  }

  lemma PathTexts()
    ensures PathText("", "state") == "state" && PathText("", "security") == "security"
    ensures PathText("state", "authority") == "state.authority"
    ensures PathText("state", "snapshotAuthority") == "state.snapshotAuthority"
    ensures PathText("security", "allowRawSecrets") == "security.allowRawSecrets"
    ensures PathText("security", "verifyProvenance") == "security.verifyProvenance"
  {
    assert "state" + "." + "authority" == "state.authority";
    assert "state" + "." + "snapshotAuthority" == "state.snapshotAuthority";
    assert "security" + "." + "allowRawSecrets" == "security.allowRawSecrets";
    assert "security" + "." + "verifyProvenance" == "security.verifyProvenance";
  }

  lemma SectionsHoldNoSecret(security: Json)
    requires security == TEAM_SECURITY || security == BARE_SECURITY
    ensures HoldsNoSecret(JObj(map["state" := STATE, "security" := security]), "")
  {
    hide NamesSecret, IsReference, PathText, HoldsNoSecret;
    PathTexts();
    StatePathsNameNone("state");
    StatePathsNameNone("state.authority");
    StatePathsNameNone("state.snapshotAuthority");
    SecurityPathsNameNone("security");
    SecurityPathsNameNone("security.verifyProvenance");
    FlatSection(STATE.fields, "state");
    FlatSection(security.fields, "security");
    ObjectHolds(map["state" := STATE, "security" := security], "");
  }

  lemma ObjectHolds(fields: Object, path: string)
    requires forall k :: k in fields ==> GivesNoSecret(PathText(path, k), fields[k])
    requires forall k :: k in fields ==> HoldsNoSecret(fields[k], PathText(path, k))
    ensures HoldsNoSecret(JObj(fields), path)
  {
    hide GivesNoSecret, PathText;
  }

  lemma FlatSection(fields: Object, path: string)
    requires forall k :: k in fields ==> GivesNoSecret(PathText(path, k), fields[k])
    requires forall k :: k in fields ==> fields[k].JStr? || fields[k].JBool?
    ensures HoldsNoSecret(JObj(fields), path)
  {
    hide GivesNoSecret, PathText;
  }

  lemma TeamProfileIsValid(security: Json)
    requires security == TEAM_SECURITY || security == BARE_SECURITY
    ensures ValidProfile(TEAM_PROFILE.(configuration := JObj(map["state" := STATE, "security" := security])))
  {
    hide HoldsNoSecret;
    SectionsHoldNoSecret(security);
    assert '0' in "0.1" && 't' in "team" && 'A' in "A team";
  }

  lemma NoOverrides(parse: string -> Json)
    ensures Overrides(map[], "V3__", parse) == Success(map[])
  {
  }

  /** Layers with the one key "security", where the merge does not go into the object. */
  lemma SecurityReplaced(base: Object, v: Json, ord: Order)
    requires Lists(ord) && "security" in base && !(v.JObj? && base["security"].JObj?)
    ensures Merged(base, JObj(map["security" := v]), "", ord) == Success(base["security" := v])
  {
    hide Resolve, Lists, Merged, PROTECTED_PATHS;
    OnlyKey(map["security" := v], "security", ord);
    OwnKey(base, "security");
    SectionIsFree("security");
    MergedUnfolds(base, JObj(map["security" := v]), ord);
  }

  lemma SectionIsFree(section: string)
    requires section == "security"
    ensures PathText("", section) == section && section !in PROTECTED_PATHS
  {
    assert |section| == 8;
    assert forall path :: path in PROTECTED_PATHS ==> |path| >= 15;
  }

  lemma MergedUnfolds(base: Object, override: Json, ord: Order)
    requires override.JObj? && Lists(ord) && ord("", override.fields) == ["security"] && "security" in override.fields
    ensures Merged(base, override, "", ord) == MergedKeys(base, override, ["security"], "", ord)
  {
    hide MergedKeys;
  }

  lemma Twice<T>(xs: seq<T>)
    requires |xs| >= 2 && xs[0] == xs[1]
    ensures !NoDuplicates(xs)
  {
  }

  lemma OnlyKey(o: Object, k: string, ord: Order)
    requires Lists(ord) && o.Keys == {k}
    ensures ord("", o) == [k]
  {
    hide NoDuplicates;
    var keys := ord("", o);
    assert NoDuplicates(keys) && forall x :: x in keys <==> x in o;
    assert k in keys;
    forall i | 0 <= i < |keys| ensures keys[i] == k {
      assert keys[i] in keys && keys[i] in o;
    }
    if |keys| >= 2 { Twice(keys); }
  }

  lemma OntoNothing(override: Json, ord: Order)
    requires override.JObj? && Lists(ord) && Tidy(override)
    ensures Merged(map[], override, "", ord) == Success(override.fields)
  {
    hide Merged, Lists, Combined;
    MergedMeans(map[], override, "", ord);
    assert !Violates(map[], override, "");
    assert DeepMerge(map[], override, override.fields.Keys) == override.fields;
  }

  /** A checked team profile whose returned, and again checked, runtime has lost the flag that turns on the
      verification of provenance; whatever the orders of keys. */
  lemma DetourLosesProvenance(parse: string -> Json, hash: Object -> string, ords: Orders)
    requires OrdersList(ords)
    ensures var r := RuntimeOf(TEAM_PROFILE, DETOUR, parse, hash, ords);
      && r.Success? && Lookup(TEAM_PROFILE.configuration.fields, PROVENANCE) == Some(JBool(true))
      && Lookup(r.value.configuration, PROVENANCE) == None
  {
    hide ValidProfile, Overrides, Merged, Lists, SourcesOf, Assembled, HoldsNoSecret, Tidy;
    var c0 := TEAM_PROFILE.configuration;
    var c1 := c0.fields["security" := JStr("off")];
    var c2 := c1["security" := BARE_SECURITY];
    TeamProfileIsValid(TEAM_SECURITY);
    TeamProfileIsValid(BARE_SECURITY);
    NoOverrides(parse);
    TeamProfileIsTidy();
    OntoNothing(c0, ords.profile);
    SecurityReplaced(c0.fields, JStr("off"), ords.project);
    SecurityReplaced(c1, BARE_SECURITY, ords.commandLine);
    AssembledFive(c0, ords, c1, c2);
    assert c2 == map["state" := STATE, "security" := BARE_SECURITY];
    assert TEAM_PROFILE.(configuration := c0) == TEAM_PROFILE;
    assert PROVENANCE[1..] == ["verifyProvenance"];
  }

  lemma AssembledOne(c: Object, l: Layer, more: seq<Layer>)
    requires Lists(l.ord) && AllList(more) && AllList([l] + more)
    ensures Assembled(c, [l] + more) ==
      if Falsy(l.value) then Assembled(c, more)
      else if !l.value.JObj? then Failure(NotAnObject)
      else
        var merged := Merged(c, l.value, "", l.ord);
        if merged.Failure? then Failure(Protected(merged.error)) else Assembled(merged.value, more)
  {
    hide Merged, Lists, AllList;
    assert ([l] + more)[1..] == more;
  }

  lemma AssembledFive(c0: Json, ords: Orders, c1: Object, c2: Object)
    requires OrdersList(ords) && c0.JObj? && c0.fields != map[] && TEAM_PROFILE.configuration == c0
    requires Merged(map[], c0, "", ords.profile) == Success(c0.fields)
    requires Merged(c0.fields, DETOUR.project, "", ords.project) == Success(c1)
    requires Merged(c1, DETOUR.commandLine, "", ords.commandLine) == Success(c2)
    ensures AllList(LayersOf(TEAM_PROFILE, DETOUR, map[], ords))
    ensures Assembled(map[], LayersOf(TEAM_PROFILE, DETOUR, map[], ords)) == Success(c2)
  {
    hide Merged, Lists, Assembled;
    LayersList(TEAM_PROFILE, DETOUR, map[], ords);
    var e, d := [Layer(DETOUR.commandLine, ords.commandLine)], Layer(JObj(map[]), ords.environment);
    var c, b := Layer(DETOUR.project, ords.project), Layer(c0, ords.profile);
    assert "security" in DETOUR.project.fields && "security" in DETOUR.commandLine.fields;
    NoLayers(c2);
    assert e == e + [];
    AssembledOne(c1, e[0], []);
    AssembledOne(c1, d, e);
    AssembledOne(c0.fields, c, [d] + e);
    AssembledOne(map[], b, [c] + ([d] + e));
    AssembledOne(map[], Layer(JNull, ords.defaults), [b] + ([c] + ([d] + e)));
    assert LayersOf(TEAM_PROFILE, DETOUR, map[], ords) == [Layer(JNull, ords.defaults)] + ([b] + ([c] + ([d] + e)));
  }

  lemma NoLayers(c: Object)
    ensures Assembled(c, []) == Success(c)
  {
  }

  lemma TeamProfileIsTidy()
    ensures Tidy(TEAM_PROFILE.configuration)
  {
    hide Lower, Tidy;
    LowerSections();
    FlatIsTidy();
    TwoKeysAreTidy("authority", JStr("state.db"), "snapshotAuthority", JBool(false));
    TwoKeysAreTidy("allowRawSecrets", JBool(false), "verifyProvenance", JBool(true));
    TwoKeysAreTidy("state", STATE, "security", TEAM_SECURITY);
  }

  lemma FlatIsTidy()
    ensures forall v: Json :: v.JStr? || v.JBool? ==> Tidy(v)
  {
  }

  lemma TwoKeysAreTidy(a: string, v: Json, b: string, w: Json)
    requires Tidy(v) && Tidy(w) && Lower(a) != Lower(b)
    ensures Tidy(JObj(map[a := v, b := w]))
  {
    hide Lower;
  }

  lemma LowerSections()
    ensures Lower("state") != Lower("security") && Lower("authority") != Lower("snapshotAuthority")
    ensures Lower("allowRawSecrets") != Lower("verifyProvenance")
  {
    assert |Lower("state")| == 5 && |Lower("security")| == 8;
    assert |Lower("authority")| == 9 && |Lower("snapshotAuthority")| == 17;
    assert |Lower("allowRawSecrets")| == 15 && |Lower("verifyProvenance")| == 16;
  }
}
