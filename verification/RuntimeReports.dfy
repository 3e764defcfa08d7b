/** A runtime read off its profile and what surrounds it alone: which profiles pass, what the five layers decide, and
    when an assembly is refused. */
module RuntimeReports {
  import opened Collections
  import opened ConfigLayers
  import opened EnvironmentOverrides
  import opened Json
  import opened LayerPrecedence
  import opened RuntimeProfiles
  import opened Text

  // ---------------------------------------------------------------- which profiles pass

  const PARTS := [
    "liaison", "project_lead", "scheduler", "worker", "state", "artifacts", "credential_broker", "telemetry"]

  const SECRET_WORDS := ["password", "secret", "token", "api_key", "apikey", "credential"]

  /** The section is an object that has this setting. */
  ghost predicate Sets(configuration: Object, section: string, key: string, v: Json) {
    && section in configuration
    && match configuration[section]
       case JObj(fields) => key in fields && fields[key] == v
       case _ => false
  }

  /** The letter of a word, in either case; its underscores may be dashes. */
  ghost predicate SameLetter(c: char, letter: char) {
    || c == letter
    || ('a' <= letter <= 'z' && 'A' <= c <= 'Z' && c as int - 'A' as int == letter as int - 'a' as int)
    || (letter == '_' && c == '-')
  }

  /** The word stands somewhere in the path. */
  ghost predicate Mentions(path: string, word: string) {
    exists i :: 0 <= i <= |path| - |word| && MentionsAt(path, word, i)
  }

  ghost predicate MentionsAt(path: string, word: string, i: int)
    requires 0 <= i <= |path| - |word|
  {
    forall k :: 0 <= k < |word| ==> SameLetter(path[i + k], word[k])
  }

  ghost predicate Secretive(path: string) {
    exists k :: 0 <= k < |SECRET_WORDS| && Mentions(path, SECRET_WORDS[k])
  }

  /** Text that refers to where the value is kept. */
  ghost predicate Refers(v: Json) {
    match v
    case JStr(s) =>
      || (|s| >= 6 && s[..6] == "env://") || (|s| >= 7 && s[..7] == "file://") || (|s| >= 9 && s[..9] == "broker://")
    case _ => false
  }

  /** A path in words: keys behind dots, places in lists in brackets. */
  ghost function InWords(path: seq<Part>): string
    decreases |path|
  {
    if path == [] then ""
    else
      var before := InWords(path[..|path| - 1]);
      match path[|path| - 1]
      case Key(k) => if before == "" then k else before + "." + k
      case Index(i) => before + "[" + Decimal(i) + "]"
  }

  /** A setting, however deep, that is named like a secret and gives a value. */
  ghost predicate GivesAway(configuration: Json, path: seq<Part>) {
    && path != [] && path[|path| - 1].Key? && Secretive(InWords(path))
    && InWords(path) != "security.allowRawSecrets"
    && match At(configuration, path)
       case None => false
       case Some(v) => v != JNull && !Refers(v)
  }

  /** Known parts, each once; the state file is the authority and no snapshot; no raw secrets, neither allowed nor
      there; and for production all parts, with provenance, telemetry and restore tests switched on. */
  ghost predicate SoundProfile(p: Profile) {
    && !Blank(p.schemaVersion) && !Blank(p.profileId) && !Blank(p.description)
    && |p.components| > 0 && (forall i :: 0 <= i < |p.components| ==> p.components[i] in PARTS)
    && (forall i, j :: 0 <= i < j < |p.components| ==> p.components[i] != p.components[j])
    && (match p.configuration
        case JObj(c) =>
          && Sets(c, "state", "authority", JStr("state.db")) && Sets(c, "state", "snapshotAuthority", JBool(false))
          && Sets(c, "security", "allowRawSecrets", JBool(false))
          && (p.kind == Production ==>
                && (forall k :: 0 <= k < |PARTS| ==> PARTS[k] in p.components)
                && Sets(c, "security", "verifyProvenance", JBool(true))
                && Sets(c, "telemetry", "enabled", JBool(true))
                && Sets(c, "recovery", "restoreTestsRequired", JBool(true)))
        case _ => false)
    && forall path: seq<Part> :: !GivesAway(p.configuration, path)
  }

  lemma SetsMeans(o: Object, section: string, key: string, v: Json)
    requires v != JNull
    ensures Setting(o, section, key) == v <==> Sets(o, section, key, v)
  {
  }

  lemma PartsAre(c: string)
    ensures c in COMPONENTS <==> c in PARTS
  {
    assert PARTS[0] == "liaison" && PARTS[1] == "project_lead" && PARTS[2] == "scheduler" && PARTS[3] == "worker";
    assert PARTS[4] == "state" && PARTS[5] == "artifacts" && PARTS[6] == "credential_broker";
    assert PARTS[7] == "telemetry";
  }

  /** A word in lower case, without dashes. */
  predicate PlainWord(word: string) {
    forall k :: 0 <= k < |word| ==> 'a' <= word[k] <= 'z' || word[k] == '_'
  }

  lemma LetterMeans(path: string, i: nat, letter: char)
    requires i < |path| && ('a' <= letter <= 'z' || letter == '_')
    ensures |Normalized(path)| == |path|
    ensures Normalized(path)[i] == letter <==> SameLetter(path[i], letter)
  {
  }

  lemma MentionsMeans(path: string, word: string)
    requires PlainWord(word)
    ensures Contains(Normalized(path), word) <==> Mentions(path, word)
  {
    hide Normalized, SameLetter;
    var text := Normalized(path);
    NormalizedLength(path);
    forall i | 0 <= i <= |path| - |word| ensures StandsAt(text, word, i) <==> MentionsAt(path, word, i) {
      StandsMeans(path, word, i);
    }
  }

  lemma NormalizedLength(path: string)
    ensures |Normalized(path)| == |path|
  {
  }

  lemma StandsMeans(path: string, word: string, i: nat)
    requires PlainWord(word) && i + |word| <= |path|
    ensures StandsAt(Normalized(path), word, i) <==> MentionsAt(path, word, i)
  {
    hide Normalized, SameLetter;
    NormalizedLength(path);
    var text := Normalized(path);
    forall k | 0 <= k < |word| ensures text[i..i + |word|][k] == word[k] <==> SameLetter(path[i + k], word[k]) {
      LetterMeans(path, i + k, word[k]);
      assert text[i..i + |word|][k] == text[i + k];
    }
    if MentionsAt(path, word, i) {
      assert text[i..i + |word|] == word;
    }
  }

  lemma SecretWords(term: string)
    ensures term in SECRET_TERMS <==> term in SECRET_WORDS
    ensures term in SECRET_WORDS ==> PlainWord(term)
  {
    assert SECRET_WORDS[0] == "password" && SECRET_WORDS[1] == "secret" && SECRET_WORDS[2] == "token";
    assert SECRET_WORDS[3] == "api_key" && SECRET_WORDS[4] == "apikey" && SECRET_WORDS[5] == "credential";
  }

  lemma SecretMeans(path: string)
    ensures NamesSecret(path) <==> Secretive(path)
  {
    hide Contains, Mentions, PlainWord, Normalized;
    forall term ensures
      && (term in SECRET_TERMS <==> term in SECRET_WORDS)
      && (term in SECRET_WORDS ==> (Contains(Normalized(path), term) <==> Mentions(path, term)))
    {
      SecretWords(term);
      if term in SECRET_WORDS { MentionsMeans(path, term); }
    }
    if term :| term in SECRET_TERMS && Contains(Normalized(path), term) {
      var k :| 0 <= k < |SECRET_WORDS| && SECRET_WORDS[k] == term;
    }
    if k :| 0 <= k < |SECRET_WORDS| && Mentions(path, SECRET_WORDS[k]) {
      assert SECRET_WORDS[k] in SECRET_WORDS;
    }
  }

  lemma RefersMeans(v: Json)
    ensures IsReference(v) <==> Refers(v)
  {
    if v.JStr? {
      assert |"env://"| == 6 && |"file://"| == 7 && |"broker://"| == 9;
      PrefixMeans("env://", v.s);
      PrefixMeans("file://", v.s);
      PrefixMeans("broker://", v.s);
      assert REFERENCE_PREFIXES == {"env://", "file://", "broker://"};
    }
  }

  lemma PrefixMeans(prefix: string, s: string)
    ensures prefix <= s <==> |s| >= |prefix| && s[..|prefix|] == prefix
  {
  }

  lemma {:induction false} PartsSnoc(prefix: string, path: seq<Part>, x: Part)
    ensures PartsText(prefix, path + [x]) == PartText(PartsText(prefix, path), x)
    decreases |path|
  {
    hide PartText;
    if path == [] {
      assert [x][1..] == [];
    } else {
      PartsSnoc(PartText(prefix, path[0]), path[1..], x);
      assert (path + [x])[1..] == path[1..] + [x];
    }
  }

  lemma {:induction false} TextIsInWords(path: seq<Part>)
    ensures PartsText("", path) == InWords(path)
    decreases |path|
  {
    if path == [] {
    } else {
      var front, last := path[..|path| - 1], path[|path| - 1];
      assert path == front + [last];
      TextIsInWords(front);
      PartsSnoc("", front, last);
    }
  }

  lemma SafetyMeans(v: Json, path: seq<Part>)
    ensures SafeAt(v, "", path) <==> !GivesAway(v, path)
  {
    hide NamesSecret, Secretive, IsReference, Refers, At, PartsText, InWords;
    TextIsInWords(path);
    SecretMeans(InWords(path));
    if At(v, path).Some? { RefersMeans(At(v, path).value); }
  }

  lemma NoSecretsMean(v: Json)
    ensures HoldsNoSecret(v, "") <==> forall path: seq<Part> :: !GivesAway(v, path)
  {
    hide HoldsNoSecret, SafeAt, GivesAway;
    HoldsNoSecretIff(v, "");
    forall path: seq<Part> ensures SafeAt(v, "", path) <==> !GivesAway(v, path) {
      SafetyMeans(v, path);
    }
  }

  lemma SoundSettings(c: Object, components: seq<string>)
    ensures ReadyForProduction(components, c) <==>
      && (forall k :: 0 <= k < |PARTS| ==> PARTS[k] in components)
      && Sets(c, "security", "verifyProvenance", JBool(true)) && Sets(c, "telemetry", "enabled", JBool(true))
      && Sets(c, "recovery", "restoreTestsRequired", JBool(true))
  {
    hide Setting, Sets;
    SetsMeans(c, "security", "verifyProvenance", JBool(true));
    SetsMeans(c, "telemetry", "enabled", JBool(true));
    SetsMeans(c, "recovery", "restoreTestsRequired", JBool(true));
    forall part ensures part in COMPONENTS <==> part in PARTS {
      PartsAre(part);
    }
    hide COMPONENTS, PARTS;
    forall k | 0 <= k < |PARTS| ensures PARTS[k] in PARTS {
    }
  }

  lemma ComponentsAre(components: seq<string>)
    ensures (components != [] && (forall c :: c in components ==> c in COMPONENTS) && NoDuplicates(components)) <==>
      && |components| > 0 && (forall i :: 0 <= i < |components| ==> components[i] in PARTS)
      && (forall i, j :: 0 <= i < j < |components| ==> components[i] != components[j])
  {
    forall part ensures part in COMPONENTS <==> part in PARTS {
      PartsAre(part);
    }
    hide COMPONENTS, PARTS;
    forall i | 0 <= i < |components| ensures components[i] in components {
    }
  }

  lemma ProfileMeans(p: Profile)
    ensures ValidProfile(p) <==> SoundProfile(p)
  {
    hide Setting, Sets, HoldsNoSecret, GivesAway, ReadyForProduction, Blank, COMPONENTS, PARTS, NoDuplicates;
    ComponentsAre(p.components);
    NoSecretsMean(p.configuration);
    if p.configuration.JObj? {
      var c := p.configuration.fields;
      SoundSettings(c, p.components);
      SetsMeans(c, "state", "authority", JStr("state.db"));
      SetsMeans(c, "state", "snapshotAuthority", JBool(false));
      SetsMeans(c, "security", "allowRawSecrets", JBool(false));
    }
  }

  // ---------------------------------------------------------------- the five layers

  /** The layers in the order in which each overrides those before it: defaults, the profile, the project, the
      environment and the command line. */
  ghost predicate InThisOrder(layers: seq<Layer>, p: Profile, x: Surroundings, overrides: Object) {
    && |layers| == 5
    && layers[0].value == x.defaults && layers[1].value == p.configuration && layers[2].value == x.project
    && layers[3].value == JObj(overrides) && layers[4].value == x.commandLine
  }

  lemma LayersInOrder(p: Profile, x: Surroundings, overrides: Object, ords: RuntimeProfiles.Orders)
    ensures InThisOrder(LayersOf(p, x, overrides, ords), p, x, overrides)
  {
  }

  /** In a runtime whose layers' keys are distinct ignoring case, a setting has a value that is no object exactly when,
      of defaults, profile, project, environment and command line, the latest that says anything there says it. */
  lemma LatestOfFiveDecides(
    p: Profile, x: Surroundings, parse: string -> Json, hash: Object -> string, ords: RuntimeProfiles.Orders,
    q: seq<string>, w: Json)
    requires OrdersList(ords) && RuntimeOf(p, x, parse, hash, ords).Success? && q != [] && !w.JObj?
    requires TidyLayers(LayersOf(p, x, OverridesOf(x, parse), ords))
    ensures Overrides(x.environment, "V3__", parse).Success?
    ensures var layers, overrides := LayersOf(p, x, OverridesOf(x, parse), ords),
          Overrides(x.environment, "V3__", parse).value;
      && InThisOrder(layers, p, x, overrides)
      && (Sight(JObj(RuntimeOf(p, x, parse, hash, ords).value.configuration), q) == Says(w)
          <==> LatestSays(layers, q, w))
  {
    hide ValidProfile, Overrides, Assembled, Lists, AllList, RuntimeOf, TidyLayers, LatestSays, Sight, InThisOrder,
      LayersOf, Begun, LaterLayers;
    EnvironmentRead(p, x, parse, hash, ords);
    RuntimeSteps(p, x, parse, hash, ords);
    LayersInOrder(p, x, OverridesOf(x, parse), ords);
    LatestLayerDecides(LayersOf(p, x, OverridesOf(x, parse), ords), q, w);
  }

  lemma EnvironmentRead(
    p: Profile, x: Surroundings, parse: string -> Json, hash: Object -> string, ords: RuntimeProfiles.Orders)
    requires OrdersList(ords) && RuntimeOf(p, x, parse, hash, ords).Success?
    ensures Overrides(x.environment, "V3__", parse) == Success(OverridesOf(x, parse))
  {
    hide ValidProfile, Overrides, Assembled, Lists, AllList, SourcesOf, LayersOf;
  }

  /** The name of a layer that has something to say. */
  ghost function Named(name: string, layer: Layer): seq<string> {
    if Empty(layer.value) then [] else [name]
  }

  /** The names of the layers that have something to say, in order. */
  ghost function Speaking(layers: seq<Layer>): seq<string>
    requires |layers| == 5
  {
    Named("defaults", layers[0]) + Named("profile", layers[1]) + Named("project", layers[2])
    + Named("environment", layers[3]) + Named("command_line", layers[4])
  }

  lemma SourcesStep(labels: seq<string>, layers: seq<Layer>, n: nat)
    requires n < |labels| == |layers|
    ensures SourcesOf(labels[..n + 1], layers[..n + 1])
         == SourcesOf(labels[..n], layers[..n]) + Named(labels[n], layers[n])
  {
    hide Empty, Falsy;
    EmptyMeans(layers[n].value);
    assert labels[..n + 1][..n] == labels[..n] && layers[..n + 1][..n] == layers[..n];
  }

  lemma SourcesAre(layers: seq<Layer>)
    requires |layers| == 5
    ensures SourcesOf(LABELS, layers) == Speaking(layers)
  {
    hide SourcesOf, Named;
    NoSources();
    SourcesStep(LABELS, layers, 0);
    SourcesStep(LABELS, layers, 1);
    SourcesStep(LABELS, layers, 2);
    SourcesStep(LABELS, layers, 3);
    SourcesStep(LABELS, layers, 4);
    assert LABELS[..0] == [] && layers[..0] == [] && LABELS[..5] == LABELS && layers[..5] == layers;
  }

  lemma NoSources()
    ensures SourcesOf([], []) == []
  {
  }

  /** The profile is checked first, then the environment is read, then the layers are merged, and last what comes out is
      checked like the profile; a runtime names its profile, the digest of its configuration and the layers that had
      something to say. */
  lemma RefusedRuntimeIff(
    p: Profile, x: Surroundings, parse: string -> Json, hash: Object -> string, ords: RuntimeProfiles.Orders)
    requires OrdersList(ords)
    ensures var layers, environment := LayersOf(p, x, OverridesOf(x, parse), ords),
          Overrides(x.environment, "V3__", parse);
      AllList(layers) && |layers| == 5
      && (environment.Success? ==> InThisOrder(layers, p, x, environment.value))
      && match RuntimeOf(p, x, parse, hash, ords)
         case Failure(InvalidProfile) => !SoundProfile(p)
         case Failure(InvalidEnvironment(e)) => SoundProfile(p) && environment == Failure(e)
         case Failure(InvalidLayer(e)) =>
           SoundProfile(p) && environment.Success? && Assembled(map[], layers) == Failure(e)
         case Failure(InvalidAssembly) =>
           && SoundProfile(p) && environment.Success? && Assembled(map[], layers).Success?
           && !SoundProfile(p.(configuration := JObj(Assembled(map[], layers).value)))
         case Success(r) =>
           && SoundProfile(p) && environment.Success? && Assembled(map[], layers) == Success(r.configuration)
           && SoundProfile(p.(configuration := JObj(r.configuration)))
           && r.profileId == p.profileId && r.kind == p.kind && r.digest == hash(r.configuration)
           && r.sources == Speaking(layers)
  {
    hide ValidProfile, SoundProfile, Overrides, Assembled, Lists, AllList, SourcesOf, Speaking, LABELS;
    var layers := LayersOf(p, x, OverridesOf(x, parse), ords);
    LayersList(p, x, OverridesOf(x, parse), ords);
    LayersInOrder(p, x, OverridesOf(x, parse), ords);
    SourcesAre(layers);
    ProfileMeans(p);
    if Assembled(map[], layers).Success? {
      ProfileMeans(p.(configuration := JObj(Assembled(map[], layers).value)));
    }
  }
}
