/** What the event log guarantees: its head fixes its whole history, and appends happen once. */
module EventLogProperties {
  import opened Collections
  import opened Json
  import opened Text
  import opened EventLog

  // ---------------------------------------------------------------- digests

  lemma HexDigit(c: char)
    ensures c in "0123456789abcdef" <==> '0' <= c <= '9' || 'a' <= c <= 'f'
  {
    var digits := "0123456789abcdef";
    assert digits[0] == '0' && digits[9] == '9' && digits[10] == 'a' && digits[15] == 'f';
    if '0' <= c <= '9' {
      assert digits[c as int - '0' as int] == c;
    } else if 'a' <= c <= 'f' {
      assert digits[10 + (c as int - 'a' as int)] == c;
    }
  }

  /** Sixty-four hexadecimal digits in lower case. */
  ghost predicate HexDigest(s: string) {
    |s| == 64 && forall i :: 0 <= i < |s| ==> s[i] in "0123456789abcdef"
  }

  lemma DigestMeans(s: string)
    ensures IsDigest(s) <==> HexDigest(s)
  {
    forall i | 0 <= i < |s| ensures s[i] in "0123456789abcdef" <==> '0' <= s[i] <= '9' || 'a' <= s[i] <= 'f' {
      HexDigit(s[i]);
    }
    if IsDigest(s) {
      assert forall i :: 0 <= i < |s| ==> s[i] in s;
    }
    if HexDigest(s) {
      forall c | c in s ensures '0' <= c <= '9' || 'a' <= c <= 'f' {
        var i :| 0 <= i < |s| && s[i] == c;
      }
    }
  }

  // ---------------------------------------------------------------- chains

  lemma {:induction false} NoFaultFrom(p: Platform, events: seq<Object>, i: nat)
    requires i <= |events|
    ensures FirstFault(p, events, i).None?
       <==> forall j :: i <= j < |events| ==> Fault(p, events[..j], events[j]).None?
    decreases |events| - i
  {
    hide Fault;
    if i < |events| {
      NoFaultFrom(p, events, i + 1);
    }
  }

  /** The verifier accepts exactly the valid chains. */
  lemma VerifierIsExact(p: Platform, events: seq<Object>)
    ensures FirstFault(p, events, 0).None? <==> ValidChain(p, events)
  {
    hide Fault, FirstFault;
    NoFaultFrom(p, events, 0);
  }

  lemma ChainPrefix(p: Platform, events: seq<Object>, n: nat)
    requires ValidChain(p, events) && n <= |events|
    ensures ValidChain(p, events[..n])
  {
    hide Fault;
    forall j | 0 <= j < n ensures Fault(p, events[..n][..j], events[..n][j]).None? {
      assert events[..n][..j] == events[..j];
    }
  }

  /** What the absence of a fault says of an event after the events before it. */
  lemma NoFaultMeans(p: Platform, earlier: seq<Object>, e: Object)
    requires Fault(p, earlier, e).None?
    ensures ValidEvent(p, e) && Field(e, "sequence") == JInt(|earlier| + 1)
    ensures TextOf(e, "eventHash") == EventHash(p, e)
    ensures TextOf(e, "previousEventHash")
         == if earlier == [] then ZeroHash() else TextOf(earlier[|earlier| - 1], "eventHash")
    ensures earlier != [] ==> Field(e, "projectId") == Field(earlier[0], "projectId")
    ensures KeyOf(e) !in Seen(earlier, "idempotencyKey") && Field(e, "eventId") !in Seen(earlier, "eventId")
  {
    hide EventHash, ZeroHash, ValidEvent, Seen;
  }

  lemma HashIsText(p: Platform, e: Object)
    requires ValidEvent(p, e)
    ensures Field(e, "eventHash") == JStr(TextOf(e, "eventHash"))
  {
    hide ValidActor, OrderedTimes, IsDigest;
  }

  /** Facts about one accepted event. */
  lemma AcceptedEvent(p: Platform, events: seq<Object>, i: nat)
    requires ValidChain(p, events) && i < |events|
    ensures ValidEvent(p, events[i]) && Field(events[i], "sequence") == JInt(i + 1)
    ensures Field(events[i], "eventHash") == JStr(EventHash(p, events[i]))
    ensures TextOf(events[i], "previousEventHash")
         == if i == 0 then ZeroHash() else TextOf(events[i - 1], "eventHash")
    ensures Field(events[i], "projectId") == Field(events[0], "projectId")
    ensures forall j :: 0 <= j < i ==>
      KeyOf(events[j]) != KeyOf(events[i]) && Field(events[j], "eventId") != Field(events[i], "eventId")
  {
    hide EventHash, ZeroHash, ValidEvent, Fault, TextOf;
    var earlier := events[..i];
    NoFaultMeans(p, earlier, events[i]);
    HashIsText(p, events[i]);
    forall j | 0 <= j < i ensures
      KeyOf(events[j]) != KeyOf(events[i]) && Field(events[j], "eventId") != Field(events[i], "eventId")
    {
      assert events[j] in earlier;
    }
    if i > 0 {
      assert earlier[|earlier| - 1] == events[i - 1] && earlier[0] == events[0];
    }
  }

  lemma KeysAreUnique(p: Platform, events: seq<Object>, i: nat, j: nat)
    requires ValidChain(p, events) && i < |events| && j < |events|
    requires KeyOf(events[i]) == KeyOf(events[j])
    ensures i == j
  {
    if i < j { AcceptedEvent(p, events, j); }
    if j < i { AcceptedEvent(p, events, i); }
  }

  // ---------------------------------------------------------------- the head fixes the history

  /** Two different contents with one hash. */
  ghost predicate Collides(p: Platform, a: Object, b: Object) {
    a != b && p.hash(a) == p.hash(b)
  }

  lemma SealedDetermines(x: Object, y: Object)
    requires Sealed(x) == Sealed(y) && "eventHash" in x && "eventHash" in y && x["eventHash"] == y["eventHash"]
    ensures x == y
  {
    assert x.Keys == Sealed(x).Keys + {"eventHash"} && y.Keys == Sealed(y).Keys + {"eventHash"};
    forall k | k in x ensures k in y && x[k] == y[k] {
      if k != "eventHash" {
        assert Sealed(x)[k] == x[k] && k in Sealed(y) && Sealed(y)[k] == y[k];
      }
    }
  }

  /** Accepted events with one hash are the same event at the same position after the same link, or
      their contents collide. */
  lemma SameHashSameEvent(p: Platform, xs: seq<Object>, m: nat, ys: seq<Object>, n: nat)
    requires ValidChain(p, xs) && ValidChain(p, ys) && m < |xs| && n < |ys|
    requires TextOf(xs[m], "eventHash") == TextOf(ys[n], "eventHash")
    ensures Collides(p, Sealed(xs[m]), Sealed(ys[n]))
      || (m == n && xs[m] == ys[n]
          && (m > 0 ==> TextOf(xs[m - 1], "eventHash") == TextOf(ys[n - 1], "eventHash")))
  {
    hide ValidEvent, Fault, Sealed, ZeroHash, ValidChain;
    AcceptedEvent(p, xs, m);
    AcceptedEvent(p, ys, n);
    if Sealed(xs[m]) == Sealed(ys[n]) {
      SealedDetermines(xs[m], ys[n]);
    }
  }

  ghost predicate SameHead(xs: seq<Object>, ys: seq<Object>) {
    xs != [] && ys != [] && TextOf(xs[|xs| - 1], "eventHash") == TextOf(ys[|ys| - 1], "eventHash")
  }

  /** Two accepted chains with the same head hash are the same history, event by event, unless some
      pair of their events exhibits a hash collision. */
  lemma {:induction false} HeadFixesHistory(p: Platform, xs: seq<Object>, ys: seq<Object>)
    requires ValidChain(p, xs) && ValidChain(p, ys)
    ensures SameHead(xs, ys) ==>
      xs == ys || exists i, j :: 0 <= i < |xs| && 0 <= j < |ys| && Collides(p, Sealed(xs[i]), Sealed(ys[j]))
    decreases |xs|
  {
    hide ValidChain, Sealed, TextOf;
    if SameHead(xs, ys) {
      var m, n := |xs| - 1, |ys| - 1;
      SameHashSameEvent(p, xs, m, ys, n);
      if !Collides(p, Sealed(xs[m]), Sealed(ys[n])) && m > 0 {
        ChainPrefix(p, xs, m);
        ChainPrefix(p, ys, n);
        var xs', ys' := xs[..m], ys[..n];
        assert xs == xs' + [xs[m]] && ys == ys' + [ys[n]];
        HeadFixesHistory(p, xs', ys');
        if xs' != ys' {
          var i, j :| 0 <= i < |xs'| && 0 <= j < |ys'| && Collides(p, Sealed(xs'[i]), Sealed(ys'[j]));
          assert Collides(p, Sealed(xs[i]), Sealed(ys[j]));
        }
      }
    }
  }

  /** With an injective hash the head hash alone determines length and every event. */
  lemma InjectiveHeadFixesHistory(p: Platform, xs: seq<Object>, ys: seq<Object>)
    requires forall a, b :: p.hash(a) == p.hash(b) ==> a == b
    requires ValidChain(p, xs) && ValidChain(p, ys)
    ensures SameHead(xs, ys) ==> xs == ys
  {
    hide ValidChain;
    HeadFixesHistory(p, xs, ys);
  }

  // ---------------------------------------------------------------- appends happen once

  function Keys(events: seq<Object>): set<Json> {
    Seen(events, "idempotencyKey")
  }

  /** A draft that does not itself carry the fields an append stamps. */
  predicate Clean(draft: Object) {
    draft.Keys !! STAMPS
  }

  /** One successful append: a new event goes at the end, or the chain is untouched. */
  lemma AppendStep(p: Platform, events: seq<Object>, draft: Object)
    requires Append(p, events, draft).Success?
    ensures var a := Append(p, events, draft).value;
      && ValidChain(p, events) && ValidChain(p, a.events) && a.event in a.events
      && (a.isNew <==> KeyOf(draft) !in Keys(events))
      && (a.isNew ==> a.events == events + [a.event] && a.event == Stamped(p, events, draft))
      && (!a.isNew ==> a.events == events && Comparable(a.event) == draft)
      && KeyOf(a.event) == KeyOf(draft)
  {
    hide FirstFault, ValidChain, ValidEvent, Stamped, Comparable;
    VerifierIsExact(p, events);
    VerifierIsExact(p, events + [Stamped(p, events, draft)]);
    StampingKeepsKey(p, events, draft);
    match FindKey(events, KeyOf(draft), 0) {
      case Some(i) => assert events[i] in events;
      case None =>
    }
  }

  lemma StampingKeepsKey(p: Platform, events: seq<Object>, draft: Object)
    ensures KeyOf(Stamped(p, events, draft)) == KeyOf(draft)
  {
    hide EventHash, ZeroHash;
  }

  lemma KeysStep(events: seq<Object>, e: Object)
    ensures Keys(events + [e]) == Keys(events) + {KeyOf(e)}
  {
    SeenStep(events, e, "idempotencyKey");
  }

  /** How many members of a set with one more element are new. */
  lemma CountNew<T>(known: set<T>, k: T, rest: set<T>)
    ensures |({k} + rest) - known| == |rest - (known + {k})| + (if k in known then 0 else 1)
  {
    if k in known {
      assert ({k} + rest) - known == rest - (known + {k});
    } else {
      assert ({k} + rest) - known == (rest - (known + {k})) + {k};
    }
  }

  /** Any run of successful appends keeps the chain valid, only ever adds at the end, and grows it by
      the number of distinct new idempotency keys. */
  lemma {:induction false} AppendsGrowByNewKeys(p: Platform, events: seq<Object>, drafts: seq<Object>)
    requires ValidChain(p, events) && AppendAll(p, events, drafts).Success?
    ensures var after := AppendAll(p, events, drafts).value;
      && ValidChain(p, after) && events <= after
      && Keys(after) == Keys(events) + Keys(drafts)
      && |after| == |events| + |Keys(drafts) - Keys(events)|
    decreases |drafts|
  {
    hide ValidChain, Append, Keys, KeyOf, Stamped, Comparable;
    if drafts == [] {
      NoKeys();
      assert {} - Keys(events) == {};
    } else {
      var k, rest := KeyOf(drafts[0]), Keys(drafts[1..]);
      AppendStep(p, events, drafts[0]);
      var a := Append(p, events, drafts[0]).value;
      AppendsGrowByNewKeys(p, a.events, drafts[1..]);
      KeysOfTail(drafts);
      CountNew(Keys(events), k, rest);
      if a.isNew {
        KeysStep(events, a.event);
      } else {
        assert Keys(events) + {k} == Keys(events);
      }
    }
  }

  lemma NoKeys()
    ensures Keys([]) == {}
  {
  }

  lemma KeysOfTail(drafts: seq<Object>)
    requires drafts != []
    ensures Keys(drafts) == {KeyOf(drafts[0])} + Keys(drafts[1..])
  {
    assert drafts == [drafts[0]] + drafts[1..];
    forall v | v in Keys(drafts[1..]) ensures v in Keys(drafts) {
      var x :| x in drafts[1..] && v == KeyOf(x);
      assert x in drafts;
    }
    assert drafts[0] in drafts;
  }

  /** The stamps are exactly what separates an appended event from its draft. */
  lemma ComparableIsDraft(p: Platform, events: seq<Object>, draft: Object)
    ensures Comparable(Stamped(p, events, draft)) == draft <==> Clean(draft)
  {
    hide EventHash, ZeroHash;
    var e := Stamped(p, events, draft);
    var c := Comparable(e);
    assert forall k :: k in STAMPS <==> k == "sequence" || k == "previousEventHash" || k == "eventHash";
    assert c.Keys == draft.Keys - STAMPS;
    forall k | k in c ensures c[k] == draft[k] {
      assert k in draft && k !in STAMPS;
    }
    if Clean(draft) {
      assert c.Keys == draft.Keys;
    }
  }

  lemma FindKeyFinds(p: Platform, events: seq<Object>, i: nat)
    requires ValidChain(p, events) && i < |events|
    ensures FindKey(events, KeyOf(events[i]), 0) == Some(i)
  {
    hide ValidChain;
    var r := FindKey(events, KeyOf(events[i]), 0);
    if r.Some? {
      KeysAreUnique(p, events, r.value, i);
    }
  }

  /** Re-appending a draft after it was appended and after any number of later appends returns the
      original event and leaves the history alone; exactly when the draft carries none of the stamped
      fields. Otherwise the retry is refused as a reused key. */
  lemma RetryReturnsOriginalIffClean(p: Platform, events: seq<Object>, draft: Object, later: seq<Object>)
    requires Append(p, events, draft).Success? && Append(p, events, draft).value.isNew
    requires AppendAll(p, Append(p, events, draft).value.events, later).Success?
    ensures var first := Append(p, events, draft).value;
      var now := AppendAll(p, first.events, later).value;
      && (Clean(draft) <==> Append(p, now, draft) == Success(Appended(now, first.event, false)))
      && (!Clean(draft) <==> Append(p, now, draft) == Failure(KeyReused))
  {
    AppendStep(p, events, draft);
    var first := Append(p, events, draft).value;
    hide ValidChain, Clean, Comparable, Stamped, FirstFault, ValidEvent, Seen;
    var now := AppendAll(p, first.events, later).value;
    AppendsGrowByNewKeys(p, first.events, later);
    assert now[|events|] == first.event;
    FindKeyFinds(p, now, |events|);
    VerifierIsExact(p, now);
    ComparableIsDraft(p, events, draft);
  }

  // ---------------------------------------------------------------- which drafts are accepted

  /** The hash always yields a digest, as SHA-256 in hexadecimal does. */
  ghost predicate Digests(p: Platform) {
    forall content: Object :: IsDigest(p.hash(content))
  }

  /** What a draft has to say by itself. */
  predicate ValidDraft(p: Platform, d: Object) {
    && HasText(d, "eventId") && HasText(d, "projectId") && HasText(d, "streamId")
    && HasText(d, "eventType") && HasText(d, "aggregateType") && HasText(d, "aggregateId")
    && HasText(d, "occurredAt") && HasText(d, "recordedAt") && HasText(d, "idempotencyKey")
    && ValidActor(d) && Field(d, "payload").JObj? && OrderedTimes(p, d)
  }

  /** A draft fits after the events: same project, a new id, and a cause among them if it names one. */
  predicate FitsAfter(events: seq<Object>, d: Object) {
    && (events != [] ==> Field(d, "projectId") == Field(events[0], "projectId"))
    && Field(d, "eventId") !in Seen(events, "eventId")
    && (Field(d, "causationId") == JNull || Field(d, "causationId") in Seen(events, "eventId"))
  }

  lemma TextIsNotBlank(s: string, k: nat)
    requires k < |s| && !IsSpace(s[k])
    ensures !Blank(s)
  {
    assert s[k] in s;
  }

  lemma DigestIsText(s: string)
    requires IsDigest(s)
    ensures !Blank(s)
  {
    assert s[0] in s;
    TextIsNotBlank(s, 0);
  }

  /** Stamping changes no other field. */
  lemma StampedFields(p: Platform, events: seq<Object>, d: Object, key: string)
    requires key !in STAMPS
    ensures Field(Stamped(p, events, d), key) == Field(d, key)
    ensures TextOf(Stamped(p, events, d), key) == TextOf(d, key)
    ensures HasText(Stamped(p, events, d), key) <==> HasText(d, key)
  {
    hide EventHash, ZeroHash, Blank;
  }

  /** The stamps themselves: position, link and own hash. */
  lemma StampedSeal(p: Platform, events: seq<Object>, d: Object)
    ensures var e := Stamped(p, events, d);
      && Field(e, "sequence") == JInt(|events| + 1)
      && Field(e, "previousEventHash")
         == JStr(if events == [] then ZeroHash() else TextOf(events[|events| - 1], "eventHash"))
      && Field(e, "eventHash") == JStr(EventHash(p, e))
  {
    hide ZeroHash;
    var link := if events == [] then ZeroHash() else TextOf(events[|events| - 1], "eventHash");
    var event := d["sequence" := JInt(|events| + 1)]["previousEventHash" := JStr(link)];
    assert Sealed(event["eventHash" := JStr(EventHash(p, event))]) == Sealed(event);
  }

  lemma LinkIsDigest(p: Platform, events: seq<Object>)
    requires ValidChain(p, events)
    ensures IsDigest(if events == [] then ZeroHash() else TextOf(events[|events| - 1], "eventHash"))
  {
    hide ValidChain, ValidActor, OrderedTimes;
    if events != [] {
      AcceptedEvent(p, events, |events| - 1);
    }
  }

  lemma StampedIsValidIff(p: Platform, events: seq<Object>, d: Object)
    requires Digests(p) && ValidChain(p, events)
    ensures ValidEvent(p, Stamped(p, events, d)) <==> ValidDraft(p, d)
  {
    hide ValidChain, IsDigest, Blank, Stamped, EventHash, ZeroHash;
    var e := Stamped(p, events, d);
    StampedSeal(p, events, d);
    LinkIsDigest(p, events);
    HashIsDigest(p, e);
    DigestIsText(TextOf(e, "previousEventHash"));
    DigestIsText(TextOf(e, "eventHash"));
    StampedKeepsTexts(p, events, d);
    StampedFields(p, events, d, "actor");
    StampedFields(p, events, d, "payload");
    StampedFields(p, events, d, "occurredAt");
    StampedFields(p, events, d, "recordedAt");
  }

  lemma HashIsDigest(p: Platform, e: Object)
    requires Digests(p)
    ensures IsDigest(EventHash(p, e))
  {
    hide IsDigest;
  }

  lemma StampedKeepsTexts(p: Platform, events: seq<Object>, d: Object)
    ensures forall key :: key !in STAMPS ==> (HasText(Stamped(p, events, d), key) <==> HasText(d, key))
  {
    hide Stamped, HasText;
    forall key: string | key !in STAMPS ensures HasText(Stamped(p, events, d), key) <==> HasText(d, key) {
      StampedFields(p, events, d, key);
    }
  }

  lemma StampedFaultIff(p: Platform, events: seq<Object>, d: Object)
    requires Digests(p) && ValidChain(p, events) && KeyOf(d) !in Keys(events)
    ensures Fault(p, events, Stamped(p, events, d)).None? <==> ValidDraft(p, d) && FitsAfter(events, d)
  {
    hide ValidChain, ValidEvent, ValidDraft, Stamped, EventHash, ZeroHash, Seen;
    StampedIsValidIff(p, events, d);
    StampedSeal(p, events, d);
    StampedFields(p, events, d, "projectId");
    StampedFields(p, events, d, "eventId");
    StampedFields(p, events, d, "causationId");
    StampedFields(p, events, d, "idempotencyKey");
  }

  lemma OneMoreFault(p: Platform, events: seq<Object>, e: Object)
    requires ValidChain(p, events)
    ensures ValidChain(p, events + [e]) <==> Fault(p, events, e).None?
  {
    hide Fault;
    var longer := events + [e];
    assert longer[..|events|] == events;
    forall j | 0 <= j < |events| ensures Fault(p, longer[..j], longer[j]).None? {
      assert longer[..j] == events[..j];
    }
  }

  /** The stamps never cause a refusal: a draft with a new key is appended exactly when it is valid by
      itself, stays in the project, has a new event id and names no cause that is not there. */
  lemma NewKeyIsAppendedIff(p: Platform, events: seq<Object>, d: Object)
    requires Digests(p) && ValidChain(p, events) && KeyOf(d) !in Keys(events)
    ensures Append(p, events, d).Success? <==> ValidDraft(p, d) && FitsAfter(events, d)
    ensures Append(p, events, d).Success? ==>
      Append(p, events, d).value.isNew
  {
    hide ValidChain, ValidEvent, ValidDraft, FitsAfter, Stamped, FirstFault, Fault;
    var e := Stamped(p, events, d);
    VerifierIsExact(p, events);
    VerifierIsExact(p, events + [e]);
    OneMoreFault(p, events, e);
    StampedFaultIff(p, events, d);
    StampedIsValidIff(p, events, d);
    KeyIsNew(events, d);
  }

  lemma KeyIsNew(events: seq<Object>, d: Object)
    requires KeyOf(d) !in Keys(events)
    ensures FindKey(events, KeyOf(d), 0).None?
  {
    forall j | 0 <= j < |events| ensures KeyOf(events[j]) != KeyOf(d) {
      assert events[j] in events;
    }
  }

  /** A draft that carries a sequence number is accepted once and refused on an identical retry. */
  lemma UncleanRetryIsRefused(p: Platform, events: seq<Object>, draft: Object)
    requires "sequence" in draft
    requires Append(p, events, draft).Success? && Append(p, events, draft).value.isNew
    ensures Append(p, Append(p, events, draft).value.events, draft) == Failure(KeyReused)
  {
    var first := Append(p, events, draft).value;
    assert AppendAll(p, first.events, []) == Success(first.events);
    assert "sequence" in STAMPS;
    hide Append;
    RetryReturnsOriginalIffClean(p, events, draft, []);
  }

  /** A hash and a clock for the example: every content has one hash, every time is the same. */
  const CONSTANT_PLATFORM := Platform((content: Object) => seq(64, _ => 'a'), (text: string) => Some(0))

  const SEQUENCED_ACTOR: Object := map["type" := JStr("user"), "id" := JStr("U")]

  const SEQUENCED_DRAFT: Object := map[
    "eventId" := JStr("EVT-1"), "projectId" := JStr("P"), "streamId" := JStr("project:P"),
    "eventType" := JStr("noted"), "aggregateType" := JStr("project"), "aggregateId" := JStr("P"),
    "occurredAt" := JStr("T"), "recordedAt" := JStr("T"), "idempotencyKey" := JStr("K"),
    "actor" := JObj(SEQUENCED_ACTOR), "payload" := JObj(map[]),
    "sequence" := JInt(1)]

  lemma SequencedTexts()
    ensures var d := SEQUENCED_DRAFT;
      && HasText(d, "eventId") && HasText(d, "projectId") && HasText(d, "streamId")
      && HasText(d, "eventType") && HasText(d, "aggregateType") && HasText(d, "aggregateId")
      && HasText(d, "occurredAt") && HasText(d, "recordedAt") && HasText(d, "idempotencyKey")
  {
    hide HasText, TextOf, Blank, IsSpace;
    var d := SEQUENCED_DRAFT;
    LettersAreText();
    GivesText(d, "eventId", "EVT-1");
    GivesText(d, "projectId", "P");
    GivesText(d, "streamId", "project:P");
    GivesText(d, "eventType", "noted");
    GivesText(d, "aggregateType", "project");
    GivesText(d, "aggregateId", "P");
    GivesText(d, "occurredAt", "T");
    GivesText(d, "recordedAt", "T");
    GivesText(d, "idempotencyKey", "K");
  }

  lemma SequencedActor()
    ensures ValidActor(SEQUENCED_DRAFT) && Field(SEQUENCED_DRAFT, "payload").JObj?
  {
    hide HasText, TextOf, Blank, IsSpace;
    assert Field(SEQUENCED_DRAFT, "actor") == JObj(SEQUENCED_ACTOR);
    LettersAreText();
    GivesText(SEQUENCED_ACTOR, "id", "U");
    GivesText(SEQUENCED_ACTOR, "type", "user");
  }

  lemma SequencedTimes()
    ensures OrderedTimes(CONSTANT_PLATFORM, SEQUENCED_DRAFT)
  {
    hide TextOf;
  }

  lemma SequencedDraftIsValid()
    ensures ValidDraft(CONSTANT_PLATFORM, SEQUENCED_DRAFT) && FitsAfter([], SEQUENCED_DRAFT)
  {
    hide HasText, ValidActor, OrderedTimes;
    SequencedTexts();
    SequencedActor();
    SequencedTimes();
  }

  lemma GivesText(o: Object, key: string, s: string)
    requires key in o && o[key] == JStr(s) && s != "" && !IsSpace(s[0])
    ensures HasText(o, key) && TextOf(o, key) == s
  {
    TextIsNotBlank(s, 0);
  }

  lemma LettersAreText()
    ensures forall c :: 'A' <= c <= 'Z' || 'a' <= c <= 'z' ==> !IsSpace(c)
  {
  }

  lemma ConstantPlatformDigests()
    ensures Digests(CONSTANT_PLATFORM)
  {
  }

  /** Such a draft: appended to the empty log it is a new event, although it carries a sequence number, and
      sent again it is refused. */
  lemma SequencedDraftFailsItsRetry()
    ensures var first := Append(CONSTANT_PLATFORM, [], SEQUENCED_DRAFT);
      && first.Success? && first.value.isNew
      && Append(CONSTANT_PLATFORM, first.value.events, SEQUENCED_DRAFT) == Failure(KeyReused)
  {
    hide Append, ValidDraft, FitsAfter, Digests, KeyOf;
    SequencedDraftIsValid();
    ConstantPlatformDigests();
    NoKeys();
    NewKeyIsAppendedIff(CONSTANT_PLATFORM, [], SEQUENCED_DRAFT);
    UncleanRetryIsRefused(CONSTANT_PLATFORM, [], SEQUENCED_DRAFT);
  }
}
