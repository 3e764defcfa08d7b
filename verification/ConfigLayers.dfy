/** Layered configuration: a later layer overrides an earlier one key by key, ignoring the case of keys,
    and may not change a protected value. Dictionaries are walked in an order of their own, which is a
    parameter here. */
module ConfigLayers {
  import opened Collections
  import opened Text
  import opened Json

  const PROTECTED_PATHS: set<string> :=
    {"security.allowRawSecrets", "security.verifyProvenance", "state.authority", "state.snapshotAuthority"}

  function PathText(prefix: string, key: string): string {
    if prefix == "" then key else prefix + "." + key
  }

  /** The order in which the object at a path lists its keys; every layer has an order of its own. */
  type Order = (string, Object) -> seq<string>

  ghost predicate Lists(ord: Order) {
    forall path: string, o: Object ::
      NoDuplicates(ord(path, o)) && forall k :: k in ord(path, o) <==> k in o
  }

  /** The keys of an object that differ from `k` at most in case. */
  function Matches(keys: set<string>, k: string): set<string> {
    set x | x in keys && Lower(x) == Lower(k)
  }

  /** The key a supplied key stands for: the only one that matches it, or itself. */
  ghost function Resolve(keys: set<string>, k: string): string {
    var matches := Matches(keys, k);
    if |matches| == 1 then var m :| m in matches; m else k
  }

  ghost predicate Protects(r: Object, path: string, key: string, v: Json) {
    path in PROTECTED_PATHS && key in r && r[key] != v
  }

  /** `override` onto `base`; a failure names the protected path. */
  ghost function Merged(base: Object, override: Json, prefix: string, ord: Order): Result<Object, string>
    requires override.JObj? && Lists(ord)
    decreases override, 1, 0
  {
    MergedKeys(base, override, ord(prefix, override.fields), prefix, ord)
  }

  ghost function MergedKeys(r: Object, override: Json, keys: seq<string>, prefix: string, ord: Order):
    Result<Object, string>
    requires override.JObj? && Lists(ord)
    requires forall k :: k in keys ==> k in override.fields
    decreases override, 0, |keys|
  {
    if keys == [] then Success(r)
    else
      var v := override.fields[keys[0]];
      var key := Resolve(r.Keys, keys[0]);
      var path := PathText(prefix, key);
      if Protects(r, path, key, v) then Failure(path)
      else if v.JObj? && key in r && r[key].JObj? then
        match Merged(r[key].fields, v, path, ord)
        case Failure(e) => Failure(e)
        case Success(o) => MergedKeys(r[key := JObj(o)], override, keys[1..], prefix, ord)
      else MergedKeys(r[key := v], override, keys[1..], prefix, ord)
  }

  /** Merges into a copy of the base, walking the override's keys. */
  method Merge(base: Object, override: Json, prefix: string, ord: Order) returns (r: Result<Object, string>)
    requires override.JObj? && Lists(ord)
    ensures r == Merged(base, override, prefix, ord)
    decreases override
  {
    var result := base;
    var keys := ord(prefix, override.fields);
    assert keys[0..] == keys;
    for i := 0 to |keys|
      invariant MergedKeys(result, override, keys[i..], prefix, ord) == Merged(base, override, prefix, ord)
    {
      assert keys[i..][0] == keys[i] && keys[i..][1..] == keys[i + 1..];
      var value := override.fields[keys[i]];
      var matches := Matches(result.Keys, keys[i]);
      var key := keys[i];
      if |matches| == 1 {
        OnlyOne(matches);
        var m :| m in matches;
        key := m;
      }
      var path := PathText(prefix, key);
      if path in PROTECTED_PATHS && key in result && result[key] != value { return Failure(path); }
      if value.JObj? && key in result && result[key].JObj? {
        var nested := Merge(result[key].fields, value, path, ord);
        if nested.Failure? { return nested; }
        result := result[key := JObj(nested.value)];
      } else {
        result := result[key := value];
      }
    }
    r := Success(result);
  }

  lemma OnlyOne(s: set<string>)
    requires |s| == 1
    ensures forall x, y :: x in s && y in s ==> x == y
  {
    var x :| x in s;
    assert |s - {x}| == 0;
    assert s == {x};
  }

  // ---------------------------------------------------------------- the declarative merge

  /** No two keys of an object, at any depth, differ only in case. */
  ghost predicate Tidy(j: Json) {
    j.JObj? ==> DistinctKeys(j.fields.Keys) && forall k :: k in j.fields ==> Tidy(j.fields[k])
  }

  ghost predicate DistinctKeys(keys: set<string>) {
    forall a, b :: a in keys && b in keys && Lower(a) == Lower(b) ==> a == b
  }

  ghost predicate HasTwin(keys: set<string>, k: string) {
    exists x :: x in keys && Lower(x) == Lower(k)
  }

  ghost function Twin(keys: set<string>, k: string): string
    requires HasTwin(keys, k)
  {
    var x :| x in keys && Lower(x) == Lower(k);
    x
  }

  /** Objects merge, anything else is replaced. */
  ghost function Combined(a: Json, b: Json): Json
    decreases b, 1
  {
    if a.JObj? && b.JObj? then JObj(DeepMerge(a.fields, b, b.fields.Keys)) else b
  }

  /** The base with the overriding keys in `s`: what both have is combined, what only one has is kept. */
  ghost function DeepMerge(base: Object, override: Json, s: set<string>): Object
    requires override.JObj? && s <= override.fields.Keys
    decreases override, 0
  {
    map k | k in base.Keys + (set x | x in s && !HasTwin(base.Keys, x)) ::
      if k !in base then override.fields[k]
      else if HasTwin(s, k) then Combined(base[k], override.fields[Twin(s, k)])
      else base[k]
  }

  /** The override changes a protected value the base has. */
  ghost predicate Violates(base: Object, override: Json, prefix: string)
    requires override.JObj?
    decreases override
  {
    exists k :: k in override.fields && KeyViolates(base, override, k, prefix)
  }

  ghost predicate KeyViolates(base: Object, override: Json, k: string, prefix: string)
    requires override.JObj? && k in override.fields
    decreases override, 0
  {
    HasTwin(base.Keys, k)
    && var key := Twin(base.Keys, k);
       var path := PathText(prefix, key);
       var v := override.fields[k];
       || Protects(base, path, key, v)
       || (v.JObj? && base[key].JObj? && Violates(base[key].fields, v, path))
  }

  // ---------------------------------------------------------------- the loop computes the declarative merge

  lemma TwinFacts(keys: set<string>, k: string)
    requires DistinctKeys(keys)
    ensures HasTwin(keys, k) ==>
      Twin(keys, k) in keys && Lower(Twin(keys, k)) == Lower(k) && Resolve(keys, k) == Twin(keys, k)
    ensures !HasTwin(keys, k) ==> Resolve(keys, k) == k && k !in keys
    ensures k in keys ==> HasTwin(keys, k) && Twin(keys, k) == k
    ensures forall x :: x in keys && Lower(x) == Lower(k) ==> HasTwin(keys, k) && x == Twin(keys, k)
  {
    hide Lower;
    if HasTwin(keys, k) {
      assert Matches(keys, k) == {Twin(keys, k)};
    } else {
      assert Matches(keys, k) == {};
    }
  }

  /** The keys a partial merge has, and which of them match a key still to come. */
  lemma PartialKeys(base: Object, override: Json, s: set<string>, k: string)
    requires override.JObj? && s <= override.fields.Keys && k in override.fields && k !in s
    requires DistinctKeys(base.Keys) && DistinctKeys(override.fields.Keys)
    ensures var r := DeepMerge(base, override, s);
      && DistinctKeys(r.Keys) && base.Keys <= r.Keys
      && (HasTwin(r.Keys, k) <==> HasTwin(base.Keys, k))
      && Resolve(r.Keys, k) == (if HasTwin(base.Keys, k) then Twin(base.Keys, k) else k)
  {
    hide Lower, Combined, Resolve;
    var r := DeepMerge(base, override, s);
    assert r.Keys == base.Keys + (set x | x in s && !HasTwin(base.Keys, x));
    TwinFacts(base.Keys, k);
    TwinFacts(r.Keys, k);
  }

  /** Adding one overriding key to a partial merge. */
  lemma OneMoreKey(base: Object, override: Json, s: set<string>, k: string)
    requires override.JObj? && s <= override.fields.Keys && k in override.fields && k !in s
    requires DistinctKeys(base.Keys) && DistinctKeys(override.fields.Keys)
    ensures var r := DeepMerge(base, override, s);
      if HasTwin(base.Keys, k) then
        var key := Twin(base.Keys, k);
        && key in base && key in r && r[key] == base[key]
        && DeepMerge(base, override, s + {k}) == r[key := Combined(base[key], override.fields[k])]
      else
        k !in r && DeepMerge(base, override, s + {k}) == r[k := override.fields[k]]
  {
    hide Lower, Combined, Resolve, HasTwin, Twin, DistinctKeys;
    var r, r' := DeepMerge(base, override, s), DeepMerge(base, override, s + {k});
    TwinFacts(base.Keys, k);
    forall x | x in base ensures
      && (HasTwin(s + {k}, x) <==> HasTwin(s, x) || Lower(x) == Lower(k))
      && (if Lower(x) == Lower(k) then !HasTwin(s, x) && Twin(s + {k}, x) == k
          else HasTwin(s, x) ==> Twin(s + {k}, x) == Twin(s, x))
    {
      OneMoreTwin(override.fields.Keys, s, k, x);
    }
    var key := if HasTwin(base.Keys, k) then Twin(base.Keys, k) else k;
    assert r'.Keys == r.Keys + {key};
  }

  /** The keys that match `x` once `k` has joined them. */
  lemma OneMoreTwin(all: set<string>, s: set<string>, k: string, x: string)
    requires DistinctKeys(all) && s <= all && k in all && k !in s
    ensures HasTwin(s + {k}, x) <==> HasTwin(s, x) || Lower(x) == Lower(k)
    ensures if Lower(x) == Lower(k) then !HasTwin(s, x) && Twin(s + {k}, x) == k
      else HasTwin(s, x) ==> Twin(s + {k}, x) == Twin(s, x)
  {
    hide Lower;
    assert k in s + {k};
    assert DistinctKeys(s + {k}) && DistinctKeys(s);
    TwinFacts(s + {k}, x);
    TwinFacts(s, x);
  }

  lemma TidyParts(o: Object)
    requires Tidy(JObj(o))
    ensures DistinctKeys(o.Keys) && forall k :: k in o ==> Tidy(o[k])
  {
  }

  /** The rest of the loop, from any partial merge. */
  lemma {:induction false} LoopMeans(
      base: Object, override: Json, s: set<string>, keys: seq<string>, prefix: string, ord: Order)
    requires override.JObj? && Lists(ord) && Tidy(JObj(base)) && Tidy(override)
    requires s <= override.fields.Keys && NoDuplicates(keys)
    requires forall k :: k in override.fields <==> k in s || k in keys
    requires forall k :: k in keys ==> k !in s
    ensures var r := MergedKeys(DeepMerge(base, override, s), override, keys, prefix, ord);
      && (r.Failure? <==> exists k :: k in keys && KeyViolates(base, override, k, prefix))
      && (r.Success? ==> r.value == DeepMerge(base, override, override.fields.Keys))
    decreases override, 0, |keys|
  {
    hide Lower, Resolve, DistinctKeys, Combined, DeepMerge, KeyViolates, Tidy, Merged, Lists;
    if keys == [] {
      assert s == override.fields.Keys;
    } else {
      var k, rest := keys[0], keys[1..];
      assert keys == [k] + rest;
      HeadDistinct(k, rest);
      TidyParts(base);
      TidyParts(override.fields);
      assert JObj(override.fields) == override;
      PartialKeys(base, override, s, k);
      OneMoreKey(base, override, s, k);
      LoopStep(base, override, s, k, prefix, ord);
      LoopMeans(base, override, s + {k}, rest, prefix, ord);
      assert forall x :: x in keys <==> x == k || x in rest;
    }
  }

  /** What one turn of the loop does to a partial merge. */
  lemma {:induction false} LoopStep(base: Object, override: Json, s: set<string>, k: string, prefix: string, ord: Order)
    requires override.JObj? && Lists(ord) && Tidy(JObj(base)) && Tidy(override)
    requires s <= override.fields.Keys && k in override.fields && k !in s
    ensures var r := DeepMerge(base, override, s);
      var v, key := override.fields[k], Resolve(r.Keys, k);
      var path := PathText(prefix, key);
      if Protects(r, path, key, v) then KeyViolates(base, override, k, prefix)
      else if v.JObj? && key in r && r[key].JObj? then
        var nested := Merged(r[key].fields, v, path, ord);
        && (nested.Failure? <==> KeyViolates(base, override, k, prefix))
        && (nested.Success? ==> r[key := JObj(nested.value)] == DeepMerge(base, override, s + {k}))
      else
        !KeyViolates(base, override, k, prefix) && r[key := v] == DeepMerge(base, override, s + {k})
    decreases override, 0, 0
  {
    hide Lower, Resolve, DistinctKeys, DeepMerge, Tidy, Merged, Lists, Violates, Protects;
    TidyParts(base);
    TidyParts(override.fields);
    assert JObj(override.fields) == override;
    PartialKeys(base, override, s, k);
    OneMoreKey(base, override, s, k);
    if HasTwin(base.Keys, k) {
      var key, v := Twin(base.Keys, k), override.fields[k];
      ProtectsAlike(base, DeepMerge(base, override, s), PathText(prefix, key), key, v);
      if v.JObj? && base[key].JObj? {
        assert JObj(base[key].fields) == base[key];
        MergedMeans(base[key].fields, v, PathText(prefix, key), ord);
      }
    } else {
      NothingToProtect(DeepMerge(base, override, s), PathText(prefix, k), k, override.fields[k]);
    }
  }

  lemma ProtectsAlike(base: Object, r: Object, path: string, key: string, v: Json)
    requires key in base && key in r && base[key] == r[key]
    ensures Protects(base, path, key, v) <==> Protects(r, path, key, v)
  {
  }

  lemma NothingToProtect(r: Object, path: string, key: string, v: Json)
    requires key !in r
    ensures !Protects(r, path, key, v)
  {
  }

  /** Whatever order dictionaries are walked in: merging fails exactly when the override changes a protected
      value of the base, and otherwise is the right-biased deep merge that ignores the case of keys. */
  lemma {:induction false} MergedMeans(base: Object, override: Json, prefix: string, ord: Order)
    requires override.JObj? && Lists(ord) && Tidy(JObj(base)) && Tidy(override)
    ensures var r := Merged(base, override, prefix, ord);
      && (r.Failure? <==> Violates(base, override, prefix))
      && (r.Success? ==> r.value == DeepMerge(base, override, override.fields.Keys))
    decreases override, 1, 0
  {
    hide KeyViolates, Tidy, MergedKeys, Combined;
    var keys := ord(prefix, override.fields);
    assert NoDuplicates(keys) && forall k :: k in keys <==> k in override.fields;
    NothingMerged(base, override);
    LoopMeans(base, override, {}, keys, prefix, ord);
  }

  lemma NothingMerged(base: Object, override: Json)
    requires override.JObj?
    ensures DeepMerge(base, override, {}) == base
  {
  }

  /** The order dictionaries are walked in never shows in the result. */
  lemma MergeIgnoresKeyOrder(base: Object, override: Json, prefix: string, ord: Order, ord': Order)
    requires override.JObj? && Lists(ord) && Lists(ord') && Tidy(JObj(base)) && Tidy(override)
    ensures Merged(base, override, prefix, ord).Success? <==> Merged(base, override, prefix, ord').Success?
    ensures Merged(base, override, prefix, ord).Success? ==>
      Merged(base, override, prefix, ord).value == Merged(base, override, prefix, ord').value
  {
    hide Merged, Tidy, Violates, DeepMerge, Lists;
    MergedMeans(base, override, prefix, ord);
    MergedMeans(base, override, prefix, ord');
  }

  // ---------------------------------------------------------------- protected values

  /** The text of a path of keys. */
  function KeysText(prefix: string, q: seq<string>): string
    requires q != []
    decreases |q|
  {
    if |q| == 1 then PathText(prefix, q[0]) else KeysText(PathText(prefix, q[0]), q[1..])
  }

  /** Somewhere above the end of `q` the override has, ignoring case, something that is no object. */
  ghost predicate ReplacesAbove(override: Json, q: seq<string>)
    requires override.JObj? && q != []
    decreases |q|
  {
    |q| > 1 && exists k :: k in override.fields && Lower(k) == Lower(q[0]) && ReplacesAt(override.fields[k], q)
  }

  ghost predicate ReplacesAt(w: Json, q: seq<string>)
    requires |q| > 1
    decreases |q|, 0
  {
    w.JObj? ==> ReplacesAbove(w, q[1..])
  }

  /** Among keys distinct ignoring case, the one that matches decides. */
  lemma OneReplaces(override: Json, q: seq<string>)
    requires override.JObj? && q != [] && DistinctKeys(override.fields.Keys)
    ensures ReplacesAbove(override, q) <==>
      |q| > 1 && HasTwin(override.fields.Keys, q[0]) && ReplacesAt(override.fields[Twin(override.fields.Keys, q[0])], q)
  {
    hide Lower, ReplacesAt;
    TwinFacts(override.fields.Keys, q[0]);
  }

  lemma {:induction false} SelfMerge(v: Json)
    requires Tidy(v)
    ensures Combined(v, v) == v
    decreases v
  {
    hide Lower;
    if v.JObj? {
      var o := v.fields;
      var r := DeepMerge(o, v, o.Keys);
      forall k | k in o ensures HasTwin(o.Keys, k) && Twin(o.Keys, k) == k && Combined(o[k], o[k]) == o[k] {
        TwinFacts(o.Keys, k);
        SelfMerge(o[k]);
      }
      assert r.Keys == o.Keys;
      assert r == o;
    }
  }

  /** One key of the merged object. */
  lemma MergedAt(base: Object, override: Json, k: string)
    requires override.JObj? && k in base
    ensures var r := DeepMerge(base, override, override.fields.Keys);
      k in r && r[k] == if HasTwin(override.fields.Keys, k) then
                          Combined(base[k], override.fields[Twin(override.fields.Keys, k)]) else base[k]
  {
    hide Combined;
  }

  lemma NoViolationAt(base: Object, override: Json, prefix: string, k: string)
    requires override.JObj? && Tidy(JObj(base)) && Tidy(override) && !Violates(base, override, prefix)
    requires k in base && HasTwin(override.fields.Keys, k)
    ensures var v := override.fields[Twin(override.fields.Keys, k)];
      && Tidy(v) && Tidy(base[k])
      && !Protects(base, PathText(prefix, k), k, v)
      && (v.JObj? && base[k].JObj? ==> !Violates(base[k].fields, v, PathText(prefix, k)))
  {
    hide Lower, Protects;
    TidyParts(base);
    TidyParts(override.fields);
    assert JObj(override.fields) == override;
    TwinFacts(override.fields.Keys, k);
    var k' := Twin(override.fields.Keys, k);
    TwinFacts(base.Keys, k');
    assert !KeyViolates(base, override, k', prefix);
  }

  /** After a successful merge a protected value of the base is where it was, exactly when the override has
      nothing but objects above it. */
  lemma {:induction false} ProtectedKeptIffObjectsKept(base: Object, override: Json, prefix: string, q: seq<string>)
    requires override.JObj? && Tidy(JObj(base)) && Tidy(override) && !Violates(base, override, prefix)
    requires q != [] && KeysText(prefix, q) in PROTECTED_PATHS && Lookup(base, q).Some?
    ensures Lookup(DeepMerge(base, override, override.fields.Keys), q) == Lookup(base, q)
       <==> !ReplacesAbove(override, q)
    decreases |q|
  {
    hide Lower, DeepMerge, Tidy, Violates, Combined, PROTECTED_PATHS;
    var k := q[0];
    MergedAt(base, override, k);
    TidyParts(override.fields);
    assert JObj(override.fields) == override;
    OneReplaces(override, q);
    if HasTwin(override.fields.Keys, k) {
      var w := override.fields[Twin(override.fields.Keys, k)];
      NoViolationAt(base, override, prefix, k);
      CombinedCases(base[k], w);
      if |q| == 1 {
        SelfMerge(w);
      } else if w.JObj? {
        assert JObj(base[k].fields) == base[k];
        ProtectedKeptIffObjectsKept(base[k].fields, w, PathText(prefix, k), q[1..]);
      }
    }
  }

  lemma CombinedCases(a: Json, b: Json)
    ensures a.JObj? && b.JObj? ==> Combined(a, b) == JObj(DeepMerge(a.fields, b, b.fields.Keys))
    ensures !(a.JObj? && b.JObj?) ==> Combined(a, b) == b
  {
    hide DeepMerge;
  }

  /** The same, of the merge as it is computed. */
  lemma MergeKeepsProtectedIff(base: Object, override: Json, ord: Order, q: seq<string>)
    requires override.JObj? && Lists(ord) && Tidy(JObj(base)) && Tidy(override)
    requires q != [] && KeysText("", q) in PROTECTED_PATHS && Lookup(base, q).Some?
    ensures var r := Merged(base, override, "", ord);
      r.Success? ==> (Lookup(r.value, q) == Lookup(base, q) <==> !ReplacesAbove(override, q))
  {
    hide Merged, Tidy, Violates, DeepMerge, Lists, KeysText;
    MergedMeans(base, override, "", ord);
    if !Violates(base, override, "") {
      ProtectedKeptIffObjectsKept(base, override, "", q);
    }
  }

  /** Resolving a key of an object among its own keys gives the key back. */
  lemma OwnKey(o: Object, k: string)
    requires k in o
    ensures Resolve(o.Keys, k) == k
  {
    hide Lower;
    var matches := Matches(o.Keys, k);
    assert k in matches;
    if |matches| == 1 {
      OnlyOne(matches);
    }
  }

  lemma {:induction false} KeysOntoThemselves(o: Object, keys: seq<string>, prefix: string, ord: Order)
    requires Lists(ord) && forall k :: k in keys ==> k in o
    ensures MergedKeys(o, JObj(o), keys, prefix, ord) == Success(o)
    decreases JObj(o), 0, |keys|
  {
    hide Resolve, Lists, PathText;
    if keys == [] {
    } else {
      var k := keys[0];
      OwnKey(o, k);
      if o[k].JObj? {
        OntoItself(o[k].fields, PathText(prefix, k), ord, JObj(o));
        assert JObj(o[k].fields) == o[k];
      }
      assert o[k := o[k]] == o;
      KeysOntoThemselves(o, keys[1..], prefix, ord);
    }
  }

  /** An object merged onto itself is itself, whatever its keys. */
  lemma OntoItself(o: Object, prefix: string, ord: Order, whole: Json)
    requires Lists(ord) && whole.JObj? && exists k :: k in whole.fields && whole.fields[k] == JObj(o)
    ensures Merged(o, JObj(o), prefix, ord) == Success(o)
    decreases whole, 0, 0
  {
    KeysOntoThemselves(o, ord(prefix, o), prefix, ord);
  }

  lemma ResolveMatches(keys: set<string>, k: string)
    ensures Lower(Resolve(keys, k)) == Lower(k)
  {
    hide Lower;
    if |Matches(keys, k)| == 1 {
      OnlyOne(Matches(keys, k));
    }
  }

  lemma LookupElsewhere(r: Object, key: string, v: Json, q: seq<string>)
    requires q != [] && key != q[0]
    ensures Lookup(r[key := v], q) == Lookup(r, q)
  {
  }

  lemma LookupThere(r: Object, o: Object, q: seq<string>)
    requires |q| > 1
    ensures Lookup(r[q[0] := JObj(o)], q) == Lookup(o, q[1..])
  {
  }

  /** One turn of the loop leaves a protected value alone that it puts only objects above. */
  lemma {:induction false} TurnKeepsProtected(
      r: Object, override: Json, k: string, prefix: string, ord: Order, q: seq<string>)
    requires override.JObj? && Lists(ord) && k in override.fields
    requires q != [] && KeysText(prefix, q) in PROTECTED_PATHS && Lookup(r, q).Some? && !ReplacesAbove(override, q)
    ensures var v, key := override.fields[k], Resolve(r.Keys, k);
      var path := PathText(prefix, key);
      Protects(r, path, key, v)
      || (if v.JObj? && key in r && r[key].JObj? then
            var nested := Merged(r[key].fields, v, path, ord);
            nested.Success? ==> Lookup(r[key := JObj(nested.value)], q) == Lookup(r, q)
          else Lookup(r[key := v], q) == Lookup(r, q))
    decreases override, 0, 0
  {
    hide Lower, Lists, Resolve, Merged, PathText, PROTECTED_PATHS, Lookup, MergedKeys;
    var v, key := override.fields[k], Resolve(r.Keys, k);
    var path := PathText(prefix, key);
    ResolveMatches(r.Keys, k);
    if key != q[0] {
      if v.JObj? && key in r && r[key].JObj? {
        var nested := Merged(r[key].fields, v, path, ord);
        if nested.Success? { LookupElsewhere(r, key, JObj(nested.value), q); }
      } else {
        LookupElsewhere(r, key, v, q);
      }
    } else {
      LookupHead(r, q);
      if |q| == 1 {
        if !Protects(r, path, key, v) {
          assert r[key] == v && r[key := v] == r;
          if v.JObj? {
            assert JObj(v.fields) == v;
            OntoItself(v.fields, path, ord, override);
          }
        }
      } else {
        assert !ReplacesAt(v, q);
        assert v.JObj? && !ReplacesAbove(v, q[1..]);
        MergedKeepsProtected(r[key].fields, v, path, ord, q[1..]);
        var nested := Merged(r[key].fields, v, path, ord);
        if nested.Success? { LookupThere(r, nested.value, q); }
      }
    }
  }

  lemma LookupHead(r: Object, q: seq<string>)
    requires q != [] && Lookup(r, q).Some?
    ensures q[0] in r
    ensures |q| > 1 ==> r[q[0]].JObj? && Lookup(r, q) == Lookup(r[q[0]].fields, q[1..])
  {
  }

  lemma {:induction false} KeysKeepProtected(
    r: Object, override: Json, keys: seq<string>, prefix: string, ord: Order, q: seq<string>)
    requires override.JObj? && Lists(ord) && forall k :: k in keys ==> k in override.fields
    requires q != [] && KeysText(prefix, q) in PROTECTED_PATHS && Lookup(r, q).Some? && !ReplacesAbove(override, q)
    requires MergedKeys(r, override, keys, prefix, ord).Success?
    ensures Lookup(MergedKeys(r, override, keys, prefix, ord).value, q) == Lookup(r, q)
    decreases override, 0, |keys| + 1
  {
    hide Lower, Lists, Resolve, Merged, PathText, PROTECTED_PATHS, Lookup, KeysText, ReplacesAbove;
    if keys == [] {
    } else {
      TurnKeepsProtected(r, override, keys[0], prefix, ord, q);
      var v, key := override.fields[keys[0]], Resolve(r.Keys, keys[0]);
      var path := PathText(prefix, key);
      if v.JObj? && key in r && r[key].JObj? {
        var nested := Merged(r[key].fields, v, path, ord);
        KeysKeepProtected(r[key := JObj(nested.value)], override, keys[1..], prefix, ord, q);
      } else {
        KeysKeepProtected(r[key := v], override, keys[1..], prefix, ord, q);
      }
    }
  }

  /** Whatever keys base and override have, and in whatever order they come: a protected value stays where
      it is through every merge that succeeds and puts only objects above it. */
  lemma {:induction false} MergedKeepsProtected(
      base: Object, override: Json, prefix: string, ord: Order, q: seq<string>)
    requires override.JObj? && Lists(ord)
    requires q != [] && KeysText(prefix, q) in PROTECTED_PATHS && Lookup(base, q).Some? && !ReplacesAbove(override, q)
    ensures var r := Merged(base, override, prefix, ord);
      r.Success? ==> Lookup(r.value, q) == Lookup(base, q)
    decreases override, 1, 0
  {
    hide MergedKeys, PathText, PROTECTED_PATHS, Lookup, KeysText, ReplacesAbove;
    if Merged(base, override, prefix, ord).Success? {
      KeysKeepProtected(base, override, ord(prefix, override.fields), prefix, ord, q);
    }
  }

  /** An override that puts text where the base has an object drops the protected value inside it. */
  lemma TextForAnObjectDropsIt(ord: Order)
    requires Lists(ord)
    ensures var base: Object := map["state" := JObj(map["authority" := JStr("state.db")])];
      var override := JObj(map["state" := JStr("elsewhere")]);
      var r := Merged(base, override, "", ord);
      r.Success? && Lookup(base, ["state", "authority"]).Some? && Lookup(r.value, ["state", "authority"]).None?
  {
    hide Merged, Lists, Lower;
    var inner: Object := map["authority" := JStr("state.db")];
    var base: Object := map["state" := JObj(inner)];
    var override := JObj(map["state" := JStr("elsewhere")]);
    OneKeyIsTidy("authority", JStr("state.db"));
    OneKeyIsTidy("state", JObj(inner));
    OneKeyIsTidy("state", JStr("elsewhere"));
    MergedMeans(base, override, "", ord);
    TwinFacts(base.Keys, "state");
    TwinFacts(override.fields.Keys, "state");
    assert override.fields.Keys == {"state"};
    assert PathText("", "state") !in PROTECTED_PATHS;
    assert !KeyViolates(base, override, "state", "");
    MergedAt(base, override, "state");
    assert Lookup(base, ["state", "authority"]) == Lookup(inner, ["authority"]) by {
      assert ["state", "authority"][1..] == ["authority"];
    }
  }

  lemma OneKeyIsTidy(k: string, v: Json)
    requires Tidy(v)
    ensures Tidy(JObj(map[k := v])) && DistinctKeys(map[k := v].Keys)
  {
    hide Lower;
  }

  // ---------------------------------------------------------------- all the layers

  /** Merging keeps keys distinct at every depth. */
  lemma {:induction false} MergeStaysTidy(base: Object, override: Json, s: set<string>)
    requires override.JObj? && s <= override.fields.Keys && Tidy(JObj(base)) && Tidy(override)
    ensures Tidy(JObj(DeepMerge(base, override, s)))
    decreases override, 0
  {
    hide Lower, Combined, HasTwin;
    TidyParts(base);
    TidyParts(override.fields);
    assert JObj(override.fields) == override;
    var r := DeepMerge(base, override, s);
    assert DistinctKeys(r.Keys) by {
      MergedKeysDistinct(base, override, s);
    }
    forall k | k in r ensures Tidy(r[k]) {
      if k in base && HasTwin(s, k) {
        TwinIn(s, k);
        CombinedTidy(base[k], override.fields[Twin(s, k)], override);
      }
    }
  }

  lemma TwinIn(keys: set<string>, k: string)
    requires HasTwin(keys, k)
    ensures Twin(keys, k) in keys
  {
    hide Lower;
  }

  lemma {:induction false} CombinedTidy(a: Json, b: Json, whole: Json)
    requires Tidy(a) && Tidy(b) && whole.JObj? && exists k :: k in whole.fields && whole.fields[k] == b
    ensures Tidy(Combined(a, b))
    decreases whole, 0, 0
  {
    hide Lower, Tidy, DeepMerge;
    CombinedCases(a, b);
    if a.JObj? && b.JObj? {
      assert JObj(a.fields) == a;
      MergeStaysTidy(a.fields, b, b.fields.Keys);
    }
  }

  lemma MergedKeysDistinct(base: Object, override: Json, s: set<string>)
    requires override.JObj? && s <= override.fields.Keys
    requires DistinctKeys(base.Keys) && DistinctKeys(override.fields.Keys)
    ensures DistinctKeys(DeepMerge(base, override, s).Keys)
  {
    hide Lower, Combined;
    assert DeepMerge(base, override, s).Keys == base.Keys + (set x | x in s && !HasTwin(base.Keys, x));
  }

  datatype AssemblyError = NotAnObject | Protected(path: string)

  /** A value Python counts as false; such layers are skipped. */
  predicate Falsy(j: Json) {
    match j
    case JNull => true
    case JBool(b) => !b
    case JInt(i) => i == 0
    case JStr(s) => s == ""
    case JArr(items) => items == []
    case JObj(fields) => fields == map[]
  }

  /** A layer, and the order in which its dictionaries list their keys. */
  datatype Layer = Layer(value: Json, ord: Order)

  ghost predicate AllList(layers: seq<Layer>) {
    forall l :: l in layers ==> Lists(l.ord)
  }

  lemma LayersSplit(layers: seq<Layer>)
    requires layers != []
    ensures AllList(layers) <==> Lists(layers[0].ord) && AllList(layers[1..])
    ensures TidyLayers(layers) <==> Tidy(layers[0].value) && TidyLayers(layers[1..])
  {
    hide Lists, Tidy;
    assert layers[0] in layers;
    forall l | l in layers ensures l == layers[0] || l in layers[1..] {
    }
    forall l | l in layers[1..] ensures l in layers {
    }
  }

  /** The layers onto a configuration, earliest first. */
  ghost function Assembled(configuration: Object, layers: seq<Layer>): Result<Object, AssemblyError>
    requires AllList(layers)
    decreases |layers|
  {
    if layers == [] then Success(configuration)
    else
      LayersSplit(layers);
      var Layer(value, ord) := layers[0];
      if Falsy(value) then Assembled(configuration, layers[1..])
      else if !value.JObj? then Failure(NotAnObject)
      else
        match Merged(configuration, value, "", ord)
        case Failure(path) => Failure(Protected(path))
        case Success(next) => Assembled(next, layers[1..])
  }

  /** The labels of the layers that are not skipped. */
  function SourcesOf(labels: seq<string>, layers: seq<Layer>): seq<string>
    requires |labels| == |layers|
  {
    if layers == [] then []
    else
      var n := |layers| - 1;
      SourcesOf(labels[..n], layers[..n]) + (if Falsy(layers[n].value) then [] else [labels[n]])
  }

  /** The fold over the layers, with the labels of those that had something to say. */
  method Assemble(labels: seq<string>, layers: seq<Layer>)
    returns (r: Result<Object, AssemblyError>, sources: seq<string>)
    requires AllList(layers) && |labels| == |layers|
    ensures r == Assembled(map[], layers)
    ensures r.Success? ==> sources == SourcesOf(labels, layers)
  {
    hide Merged, Lists;
    var configuration: Object := map[];
    sources := [];
    assert layers[0..] == layers;
    for i := 0 to |layers|
      invariant Assembled(configuration, layers[i..]) == Assembled(map[], layers)
      invariant sources == SourcesOf(labels[..i], layers[..i])
    {
      assert layers[i..][0] == layers[i] && layers[i..][1..] == layers[i + 1..];
      assert layers[..i + 1][..i] == layers[..i] && labels[..i + 1][..i] == labels[..i];
      var value := layers[i].value;
      if Falsy(value) { continue; }
      if !value.JObj? { return Failure(NotAnObject), sources; }
      var merged := Merge(configuration, value, "", layers[i].ord);
      if merged.Failure? { return Failure(Protected(merged.error)), sources; }
      configuration := merged.value;
      sources := sources + [labels[i]];
    }
    assert layers[..|layers|] == layers && labels[..|labels|] == labels;
    r := Success(configuration);
  }

  lemma {:induction false} AssembledAppend(c: Object, layers: seq<Layer>, more: seq<Layer>)
    requires AllList(layers) && AllList(more) && AllList(layers + more)
    ensures Assembled(c, layers + more) ==
      match Assembled(c, layers)
      case Failure(e) => Failure(e)
      case Success(c') => Assembled(c', more)
    decreases |layers|
  {
    hide Merged, Lists;
    if layers == [] {
      assert layers + more == more;
    } else {
      LayersSplit(layers);
      LayersSplit(layers + more);
      assert (layers + more)[0] == layers[0] && (layers + more)[1..] == layers[1..] + more;
      var Layer(value, ord) := layers[0];
      if Falsy(value) {
        AssembledAppend(c, layers[1..], more);
      } else if value.JObj? && Merged(c, value, "", ord).Success? {
        AssembledAppend(Merged(c, value, "", ord).value, layers[1..], more);
      }
    }
  }

  ghost predicate TidyLayers(layers: seq<Layer>) {
    forall l :: l in layers ==> Tidy(l.value)
  }

  ghost predicate SameValues(layers: seq<Layer>, layers': seq<Layer>) {
    |layers| == |layers'| && forall i :: 0 <= i < |layers| ==> layers[i].value == layers'[i].value
  }

  /** Assembly never depends on the orders in which dictionaries list their keys, for layers whose keys are
      distinct ignoring case. */
  lemma {:induction false} AssemblyIgnoresKeyOrder(configuration: Object, layers: seq<Layer>, layers': seq<Layer>)
    requires AllList(layers) && AllList(layers') && SameValues(layers, layers')
    requires Tidy(JObj(configuration)) && TidyLayers(layers)
    ensures var r, r' := Assembled(configuration, layers), Assembled(configuration, layers');
      (r.Success? <==> r'.Success?) && (r.Success? ==> r.value == r'.value)
    decreases |layers|
  {
    hide Merged, Tidy, Lists, Violates, DeepMerge, AllList, TidyLayers;
    if layers == [] {
    } else {
      LayersSplit(layers);
      LayersSplit(layers');
      var Layer(value, ord) := layers[0];
      if Falsy(value) {
        AssemblyIgnoresKeyOrder(configuration, layers[1..], layers'[1..]);
      } else if value.JObj? {
        MergedMeans(configuration, value, "", ord);
        MergedMeans(configuration, value, "", layers'[0].ord);
        if Merged(configuration, value, "", ord).Success? {
          MergeStaysTidy(configuration, value, value.fields.Keys);
          AssemblyIgnoresKeyOrder(Merged(configuration, value, "", ord).value, layers[1..], layers'[1..]);
        }
      }
    }
  }

  /** No layer has anything but objects above the end of `q`. */
  ghost predicate OnlyObjectsAbove(layers: seq<Layer>, q: seq<string>)
    requires q != []
  {
    forall l :: l in layers && l.value.JObj? ==> !ReplacesAbove(l.value, q)
  }

  /** A protected value that is in the configuration stays there through every later layer that puts only
      objects above it, whatever the keys of the layers. */
  lemma {:induction false} AssemblyKeepsProtected(configuration: Object, layers: seq<Layer>, q: seq<string>)
    requires AllList(layers) && q != [] && KeysText("", q) in PROTECTED_PATHS
    requires Lookup(configuration, q).Some? && OnlyObjectsAbove(layers, q)
    ensures var r := Assembled(configuration, layers);
      r.Success? ==> Lookup(r.value, q) == Lookup(configuration, q)
    decreases |layers|
  {
    hide Merged, Lists, KeysText, ReplacesAbove, Lookup, PROTECTED_PATHS;
    if layers == [] {
    } else {
      assert layers[0] in layers && forall l :: l in layers[1..] ==> l in layers;
      LayersSplit(layers);
      var Layer(value, ord) := layers[0];
      if Falsy(value) {
        AssemblyKeepsProtected(configuration, layers[1..], q);
      } else if value.JObj? && Merged(configuration, value, "", ord).Success? {
        MergedKeepsProtected(configuration, value, "", ord, q);
        AssemblyKeepsProtected(Merged(configuration, value, "", ord).value, layers[1..], q);
      }
    }
  }
}
