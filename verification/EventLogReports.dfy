/** The event log read off the events themselves: when a chain is accepted, which fault is found first, and what an
    append returns. */
module EventLogReports {
  import opened Collections
  import opened Json
  import opened Text
  import opened EventLog
  import opened EventLogProperties

  // ---------------------------------------------------------------- one event

  /** The texts every event has to have. */
  const TEXTS := [
    "eventId", "projectId", "streamId", "eventType", "aggregateType", "aggregateId", "occurredAt", "recordedAt",
    "idempotencyKey", "previousEventHash", "eventHash"]

  const ACTORS := ["user", "liaison", "project_lead", "agent", "tool", "system"]

  ghost predicate Gives(e: Object, key: string, v: Json) {
    key in e && e[key] == v
  }

  ghost predicate GivesWords(e: Object, key: string) {
    key in e && match e[key] case JStr(text) => !Blank(text) case _ => false
  }

  /** Somebody named, of a known kind, did it. */
  ghost predicate SoundActor(e: Object) {
    && "actor" in e
    && match e["actor"]
       case JObj(actor) =>
         GivesWords(actor, "id") && exists k :: 0 <= k < |ACTORS| && Gives(actor, "type", JStr(ACTORS[k]))
       case _ => false
  }

  /** Both times can be read, and it was not recorded before it occurred. */
  ghost predicate SoundTimes(p: Platform, e: Object) {
    exists occurredAt, recordedAt ::
      && Gives(e, "occurredAt", JStr(occurredAt)) && Gives(e, "recordedAt", JStr(recordedAt))
      && match (p.time(occurredAt), p.time(recordedAt))
         case (Some(occurred), Some(recorded)) => occurred <= recorded
         case _ => false
  }

  ghost predicate GivesDigest(e: Object, key: string) {
    key in e && match e[key] case JStr(text) => HexDigest(text) case _ => false
  }

  ghost predicate SoundEvent(p: Platform, e: Object) {
    && (forall k :: 0 <= k < |TEXTS| ==> GivesWords(e, TEXTS[k]))
    && ("sequence" in e && match e["sequence"] case JInt(n) => n > 0 case _ => false)
    && SoundActor(e) && ("payload" in e && e["payload"].JObj?) && SoundTimes(p, e)
    && GivesDigest(e, "previousEventHash") && GivesDigest(e, "eventHash")
  }

  lemma WordsMean(e: Object, key: string)
    ensures HasText(e, key) <==> GivesWords(e, key)
  {
  }

  lemma AllWordsMean(e: Object)
    ensures (forall k :: 0 <= k < |TEXTS| ==> GivesWords(e, TEXTS[k])) <==>
      && HasText(e, "eventId") && HasText(e, "projectId") && HasText(e, "streamId")
      && HasText(e, "eventType") && HasText(e, "aggregateType") && HasText(e, "aggregateId")
      && HasText(e, "occurredAt") && HasText(e, "recordedAt") && HasText(e, "idempotencyKey")
      && HasText(e, "previousEventHash") && HasText(e, "eventHash")
  {
    hide HasText, GivesWords;
    forall key ensures HasText(e, key) <==> GivesWords(e, key) {
      WordsMean(e, key);
    }
    assert TEXTS[0] == "eventId" && TEXTS[1] == "projectId" && TEXTS[2] == "streamId" && TEXTS[3] == "eventType";
    assert TEXTS[4] == "aggregateType" && TEXTS[5] == "aggregateId" && TEXTS[6] == "occurredAt";
    assert TEXTS[7] == "recordedAt" && TEXTS[8] == "idempotencyKey" && TEXTS[9] == "previousEventHash";
    assert TEXTS[10] == "eventHash";
  }

  lemma ActorMeans(e: Object)
    ensures ValidActor(e) <==> SoundActor(e)
  {
    hide Blank;
    if ValidActor(e) {
      var kind := TextOf(Field(e, "actor").fields, "type");
      assert kind in ACTORS by {
        assert ACTORS[0] == "user" && ACTORS[1] == "liaison" && ACTORS[2] == "project_lead" && ACTORS[3] == "agent";
        assert ACTORS[4] == "tool" && ACTORS[5] == "system";
      }
      var k :| 0 <= k < |ACTORS| && ACTORS[k] == kind;
      TypeIsGiven(Field(e, "actor").fields, kind);
    }
  }

  lemma TypeIsGiven(actor: Object, kind: string)
    requires TextOf(actor, "type") == kind && kind != ""
    ensures Gives(actor, "type", JStr(kind))
  {
  }

  lemma TimesMean(p: Platform, e: Object)
    requires HasText(e, "occurredAt") && HasText(e, "recordedAt")
    ensures OrderedTimes(p, e) <==> SoundTimes(p, e)
  {
    hide Blank;
    var o, r := TextOf(e, "occurredAt"), TextOf(e, "recordedAt");
    assert Gives(e, "occurredAt", JStr(o)) && Gives(e, "recordedAt", JStr(r));
  }

  lemma DigestGiven(e: Object, key: string)
    requires HasText(e, key)
    ensures IsDigest(TextOf(e, key)) <==> GivesDigest(e, key)
  {
    hide Blank, IsDigest, HexDigest;
    DigestMeans(TextOf(e, key));
  }

  lemma EventMeans(p: Platform, e: Object)
    ensures ValidEvent(p, e) <==> SoundEvent(p, e)
  {
    AllWordsMean(e);
    ActorMeans(e);
    if HasText(e, "occurredAt") && HasText(e, "recordedAt") { TimesMean(p, e); }
    if HasText(e, "previousEventHash") && HasText(e, "eventHash") {
      DigestGiven(e, "previousEventHash");
      DigestGiven(e, "eventHash");
    }
    hide HasText, GivesWords, ValidActor, SoundActor, OrderedTimes, SoundTimes, IsDigest, GivesDigest, TextOf;
  }

  // ---------------------------------------------------------------- one event after others

  ghost predicate SameAt(a: Object, b: Object, key: string) {
    key in a && key in b && a[key] == b[key]
  }

  ghost predicate RepeatedIn(earlier: seq<Object>, e: Object, key: string) {
    exists i :: 0 <= i < |earlier| && SameAt(earlier[i], e, key)
  }

  /** The link to the event before, or to sixty-four zeros. */
  ghost predicate Linked(earlier: seq<Object>, e: Object) {
    if earlier == [] then
      exists zeros: string :: |zeros| == 64 && (forall i :: 0 <= i < 64 ==> zeros[i] == '0')
        && Gives(e, "previousEventHash", JStr(zeros))
    else
      var last := earlier[|earlier| - 1];
      "eventHash" in last && Gives(e, "previousEventHash", last["eventHash"])
  }

  /** The event names an earlier one as its cause, or none. */
  ghost predicate Caused(earlier: seq<Object>, e: Object) {
    "causationId" in e && e["causationId"] != JNull ==>
      exists i :: 0 <= i < |earlier| && Gives(earlier[i], "eventId", e["causationId"])
  }

  /** What is wrong with an event after sound ones, the first thing in the order they are looked at. */
  ghost predicate FaultSays(fault: LogError, p: Platform, earlier: seq<Object>, e: Object) {
    var sound, next := SoundEvent(p, e), Gives(e, "sequence", JInt(|earlier| + 1));
    var project := earlier == [] || SameAt(earlier[0], e, "projectId");
    var id, key := RepeatedIn(earlier, e, "eventId"), RepeatedIn(earlier, e, "idempotencyKey");
    var own := Gives(e, "eventHash", JStr(p.hash(map k | k in e && k != "eventHash" :: e[k])));
    match fault
    case InvalidEvent => !sound
    case SequenceGap => sound && !next
    case SeveralProjects => sound && next && !project
    case DuplicateEventId => sound && next && project && id
    case DuplicateKey => sound && next && project && !id && key
    case BrokenLink => sound && next && project && !id && !key && !Linked(earlier, e)
    case WrongHash => sound && next && project && !id && !key && Linked(earlier, e) && !own
    case UnknownCause =>
      sound && next && project && !id && !key && Linked(earlier, e) && own && !Caused(earlier, e)
    case KeyReused => false
  }

  /** Nothing is wrong with the event. */
  ghost predicate Continues(p: Platform, earlier: seq<Object>, e: Object) {
    && SoundEvent(p, e) && Gives(e, "sequence", JInt(|earlier| + 1))
    && (earlier == [] || SameAt(earlier[0], e, "projectId"))
    && !RepeatedIn(earlier, e, "eventId") && !RepeatedIn(earlier, e, "idempotencyKey")
    && Linked(earlier, e) && Gives(e, "eventHash", JStr(p.hash(map k | k in e && k != "eventHash" :: e[k])))
    && Caused(earlier, e)
  }

  ghost predicate HaveTexts(events: seq<Object>) {
    forall i :: 0 <= i < |events| ==> HasText(events[i], "eventHash") && HasText(events[i], "eventId")
  }

  lemma SealIs(e: Object)
    ensures Sealed(e) == map k | k in e && k != "eventHash" :: e[k]
  {
  }

  lemma RepeatMeans(earlier: seq<Object>, e: Object, key: string)
    requires HasText(e, key)
    ensures Field(e, key) in Seen(earlier, key) <==> RepeatedIn(earlier, e, key)
  {
    hide Blank;
    if Field(e, key) in Seen(earlier, key) {
      var x :| x in earlier && Field(x, key) == Field(e, key);
      var i :| 0 <= i < |earlier| && earlier[i] == x;
      assert SameAt(earlier[i], e, key);
    }
    if i :| 0 <= i < |earlier| && SameAt(earlier[i], e, key) {
      assert earlier[i] in earlier;
    }
  }

  lemma CauseMeans(earlier: seq<Object>, e: Object)
    ensures (Field(e, "causationId") == JNull || Field(e, "causationId") in Seen(earlier, "eventId"))
      <==> Caused(earlier, e)
  {
    var cause := Field(e, "causationId");
    if cause != JNull && cause in Seen(earlier, "eventId") {
      var x :| x in earlier && Field(x, "eventId") == cause;
      var i :| 0 <= i < |earlier| && earlier[i] == x;
      assert Gives(earlier[i], "eventId", cause);
    }
    if i :| 0 <= i < |earlier| && Gives(earlier[i], "eventId", cause) {
      assert earlier[i] in earlier;
    }
  }

  lemma LinkMeans(earlier: seq<Object>, e: Object)
    requires HasText(e, "previousEventHash") && HaveTexts(earlier)
    ensures var expected := if earlier == [] then ZeroHash() else TextOf(earlier[|earlier| - 1], "eventHash");
      TextOf(e, "previousEventHash") == expected <==> Linked(earlier, e)
  {
    hide Blank;
    if earlier == [] {
      var zeros := ZeroHash();
      assert |zeros| == 64 && forall i :: 0 <= i < 64 ==> zeros[i] == '0';
      forall other: string | |other| == 64 && forall i :: 0 <= i < 64 ==> other[i] == '0' ensures other == zeros {
      }
    }
  }

  lemma FieldsMean(p: Platform, earlier: seq<Object>, e: Object)
    requires ValidEvent(p, e) && HaveTexts(earlier)
    ensures Field(e, "sequence") == JInt(|earlier| + 1) <==> Gives(e, "sequence", JInt(|earlier| + 1))
    ensures earlier != [] ==>
      (Field(e, "projectId") == Field(earlier[0], "projectId") <==> SameAt(earlier[0], e, "projectId"))
    ensures Field(e, "eventId") in Seen(earlier, "eventId") <==> RepeatedIn(earlier, e, "eventId")
    ensures Field(e, "idempotencyKey") in Seen(earlier, "idempotencyKey") <==> RepeatedIn(earlier, e, "idempotencyKey")
    ensures var expected := if earlier == [] then ZeroHash() else TextOf(earlier[|earlier| - 1], "eventHash");
      TextOf(e, "previousEventHash") == expected <==> Linked(earlier, e)
    ensures TextOf(e, "eventHash") == EventHash(p, e)
      <==> Gives(e, "eventHash", JStr(p.hash(map k | k in e && k != "eventHash" :: e[k])))
    ensures (Field(e, "causationId") == JNull || Field(e, "causationId") in Seen(earlier, "eventId"))
      <==> Caused(earlier, e)
  {
    hide SameAt, RepeatedIn, Linked, Caused, EventHash, Gives, Seen, TextOf, HaveTexts, ZeroHash, Field, HasText,
      ValidActor, OrderedTimes, IsDigest;
    RepeatMeans(earlier, e, "eventId");
    RepeatMeans(earlier, e, "idempotencyKey");
    LinkMeans(earlier, e);
    CauseMeans(earlier, e);
    if earlier != [] { ProjectMeans(earlier[0], e); }
    GivenFields(p, e, |earlier| + 1);
  }

  lemma FaultMeans(p: Platform, earlier: seq<Object>, e: Object)
    requires HaveTexts(earlier)
    ensures match Fault(p, earlier, e)
      case Some(fault) => FaultSays(fault, p, earlier, e)
      case None => Continues(p, earlier, e)
  {
    hide ValidEvent, SoundEvent, Seen, RepeatedIn, Linked, Caused, ZeroHash, EventHash, TextOf, SameAt, Gives,
      HaveTexts,
      Field;
    EventMeans(p, e);
    if ValidEvent(p, e) {
      FieldsMean(p, earlier, e);
    }
  }

  lemma ProjectMeans(first: Object, e: Object)
    requires HasText(e, "projectId")
    ensures Field(e, "projectId") == Field(first, "projectId") <==> SameAt(first, e, "projectId")
  {
    hide Blank;
  }

  lemma GivenFields(p: Platform, e: Object, n: nat)
    requires ValidEvent(p, e)
    ensures Field(e, "sequence") == JInt(n) <==> Gives(e, "sequence", JInt(n))
    ensures TextOf(e, "eventHash") == EventHash(p, e)
      <==> Gives(e, "eventHash", JStr(p.hash(map k | k in e && k != "eventHash" :: e[k])))
  {
    hide Blank, ValidActor, OrderedTimes, IsDigest, Sealed;
    SealIs(e);
  }

  lemma SoundHasTexts(p: Platform, e: Object)
    requires Continues(p, [], e) || SoundEvent(p, e)
    ensures HasText(e, "eventHash") && HasText(e, "eventId")
  {
    hide Blank, SoundActor, SoundTimes, GivesDigest;
    AllWordsMean(e);
  }

  lemma FaultDoesNotContinue(fault: LogError, p: Platform, earlier: seq<Object>, e: Object)
    requires FaultSays(fault, p, earlier, e)
    ensures !Continues(p, earlier, e)
  {
    hide SoundEvent, Linked, Caused, RepeatedIn, SameAt, Gives;
  }

  // ---------------------------------------------------------------- chains

  /** Every event up to here continues those before it. */
  ghost predicate SoundUpTo(p: Platform, events: seq<Object>, n: nat) {
    n <= |events| && forall i :: 0 <= i < n ==> Continues(p, events[..i], events[i])
  }

  lemma SoundHaveTexts(p: Platform, events: seq<Object>, n: nat)
    requires SoundUpTo(p, events, n)
    ensures HaveTexts(events[..n])
  {
    hide SoundEvent, Linked, Caused, RepeatedIn, SameAt, Gives, HasText;
    forall i | 0 <= i < n ensures HasText(events[i], "eventHash") && HasText(events[i], "eventId") {
      SoundHasTexts(p, events[i]);
    }
  }

  lemma {:induction false} FaultFrom(p: Platform, events: seq<Object>, n: nat)
    requires SoundUpTo(p, events, n)
    ensures match FirstFault(p, events, n)
      case None => SoundUpTo(p, events, |events|)
      case Some(fault) =>
        exists i :: n <= i < |events| && SoundUpTo(p, events, i) && FaultSays(fault, p, events[..i], events[i])
    decreases |events| - n
  {
    hide Continues, FaultSays, Fault, HaveTexts;
    if n < |events| {
      SoundHaveTexts(p, events, n);
      FaultMeans(p, events[..n], events[n]);
      if Fault(p, events[..n], events[n]).None? {
        FaultFrom(p, events, n + 1);
      }
    }
  }

  /** A chain is accepted exactly when every event continues those before it; and the fault that is reported is the
      one of the first event that does not. */
  lemma FirstFaultIs(p: Platform, events: seq<Object>)
    ensures match FirstFault(p, events, 0)
      case None => SoundUpTo(p, events, |events|)
      case Some(fault) =>
        exists i :: 0 <= i < |events| && SoundUpTo(p, events, i)
          && FaultSays(fault, p, events[..i], events[i]) && !Continues(p, events[..i], events[i])
  {
    hide Continues, FaultSays, FirstFault;
    FaultFrom(p, events, 0);
    if FirstFault(p, events, 0).Some? {
      var fault := FirstFault(p, events, 0).value;
      var i :| 0 <= i < |events| && SoundUpTo(p, events, i) && FaultSays(fault, p, events[..i], events[i]);
      FaultDoesNotContinue(fault, p, events[..i], events[i]);
    }
  }

  // ---------------------------------------------------------------- appends

  /** The event is the draft with its number, its link and its hash. */
  ghost predicate StampedFrom(p: Platform, events: seq<Object>, draft: Object, e: Object) {
    && e.Keys == draft.Keys + {"sequence", "previousEventHash", "eventHash"}
    && (forall k :: k in draft && k !in {"sequence", "previousEventHash", "eventHash"} ==> e[k] == draft[k])
    && Gives(e, "sequence", JInt(|events| + 1)) && Linked(events, e)
    && Gives(e, "eventHash", JStr(p.hash(map k | k in e && k != "eventHash" :: e[k])))
  }

  /** The event was appended from this very draft. */
  ghost predicate MadeFrom(e: Object, draft: Object) {
    && draft.Keys == e.Keys - {"sequence", "previousEventHash", "eventHash"}
    && forall k :: k in draft ==> e[k] == draft[k]
  }

  ghost predicate CarriesKeyOf(e: Object, draft: Object) {
    "idempotencyKey" in e && "idempotencyKey" in draft && e["idempotencyKey"] == draft["idempotencyKey"]
  }

  /** The first event with the draft's key, if there is one. */
  ghost predicate FirstWithKey(events: seq<Object>, draft: Object, i: nat) {
    && i < |events| && CarriesKeyOf(events[i], draft)
    && forall j :: 0 <= j < i ==> !CarriesKeyOf(events[j], draft)
  }

  lemma StampedIs(p: Platform, events: seq<Object>, draft: Object)
    requires HaveTexts(events)
    ensures StampedFrom(p, events, draft, Stamped(p, events, draft))
  {
    hide Sealed, HasText;
    var e := Stamped(p, events, draft);
    SealIs(e);
    if events == [] {
      var zeros := ZeroHash();
      assert |zeros| == 64 && forall i :: 0 <= i < 64 ==> zeros[i] == '0';
    } else {
      HashTextIs(events[|events| - 1]);
    }
    StampedHash(p, events, draft);
  }

  lemma HashTextIs(e: Object)
    requires HasText(e, "eventHash")
    ensures "eventHash" in e && e["eventHash"] == JStr(TextOf(e, "eventHash"))
  {
    hide Blank;
  }

  lemma StampedHash(p: Platform, events: seq<Object>, draft: Object)
    ensures Stamped(p, events, draft)["eventHash"] == JStr(p.hash(Sealed(Stamped(p, events, draft))))
  {
    var e := Stamped(p, events, draft);
    var link := if events == [] then ZeroHash() else TextOf(events[|events| - 1], "eventHash");
    var bare := draft["sequence" := JInt(|events| + 1)]["previousEventHash" := JStr(link)];
    assert Sealed(e) == Sealed(bare);
  }

  lemma ComparableMeans(e: Object, draft: Object)
    ensures Comparable(e) == draft <==> MadeFrom(e, draft)
  {
  }

  lemma KeyFound(p: Platform, events: seq<Object>, draft: Object)
    requires SoundUpTo(p, events, |events|)
    ensures match FindKey(events, KeyOf(draft), 0)
      case Some(i) => FirstWithKey(events, draft, i)
      case None => forall i :: 0 <= i < |events| ==> !CarriesKeyOf(events[i], draft)
  {
    hide SoundEvent, Linked, Caused, RepeatedIn, SameAt, Gives, FindKey;
    forall i | 0 <= i < |events| ensures "idempotencyKey" in events[i] && events[i]["idempotencyKey"] != JNull {
      KeyIsWords(p, events[i]);
    }
    FindKeyIsFirst(events, KeyOf(draft), 0);
  }

  lemma KeyIsWords(p: Platform, e: Object)
    requires SoundEvent(p, e)
    ensures "idempotencyKey" in e && e["idempotencyKey"] != JNull
  {
    hide Blank, SoundActor, SoundTimes, GivesDigest;
    AllWordsMean(e);
  }

  lemma {:induction false} FindKeyIsFirst(events: seq<Object>, key: Json, i: nat)
    requires i <= |events|
    ensures FindKey(events, key, i).Some? ==>
      forall j :: i <= j < FindKey(events, key, i).value ==> KeyOf(events[j]) != key
    decreases |events| - i
  {
    if i < |events| && KeyOf(events[i]) != key {
      FindKeyIsFirst(events, key, i + 1);
    }
  }

  /** What becomes of a draft whose key no event has. */
  ghost predicate AppendedAs(r: Result<Appended, LogError>, p: Platform, events: seq<Object>, draft: Object) {
    match r
    case Success(a) =>
      && a.isNew && a.events == events + [a.event]
      && StampedFrom(p, events, draft, a.event) && Continues(p, events, a.event)
    case Failure(fault) => exists e :: StampedFrom(p, events, draft, e) && FaultSays(fault, p, events, e)
  }

  /** A broken history is refused with its fault. Else the first event with the draft's key is returned when it was made
      from this very draft, and the append is refused when it was not; and where no event has the key, the stamped draft
      is appended when it continues the history, and else refused with its fault. */
  lemma AppendIs(p: Platform, events: seq<Object>, draft: Object)
    ensures match FirstFault(p, events, 0)
      case Some(fault) => Append(p, events, draft) == Failure(fault)
      case None =>
        && SoundUpTo(p, events, |events|)
        && (forall i: nat :: FirstWithKey(events, draft, i) ==>
              Append(p, events, draft)
              == if MadeFrom(events[i], draft) then Success(Appended(events, events[i], false)) else Failure(KeyReused))
        && ((forall i :: 0 <= i < |events| ==> !CarriesKeyOf(events[i], draft)) ==>
              AppendedAs(Append(p, events, draft), p, events, draft))
  {
    hide SoundEvent, Linked, Caused, RepeatedIn, SameAt, Gives, FindKey, FaultSays, Continues, Fault, Stamped,
      StampedFrom, MadeFrom, Comparable, KeyOf, CarriesKeyOf, HaveTexts, ValidEvent;
    FirstFaultIs(p, events);
    if FirstFault(p, events, 0).None? {
      KeyFound(p, events, draft);
      SoundHaveTexts(p, events, |events|);
      assert events[..|events|] == events;
      var e := Stamped(p, events, draft);
      StampedIs(p, events, draft);
      FaultMeans(p, events, e);
      LastFault(p, events, e, 0);
      ValidFirst(p, events, e);
      forall i | 0 <= i < |events| ensures Comparable(events[i]) == draft <==> MadeFrom(events[i], draft) {
        ComparableMeans(events[i], draft);
      }
      forall i: nat | FirstWithKey(events, draft, i) ensures FindKey(events, KeyOf(draft), 0) == Some(i) {
        OneFirst(events, draft, i, FindKey(events, KeyOf(draft), 0));
      }
    }
  }

  lemma OneFirst(events: seq<Object>, draft: Object, i: nat, found: Option<nat>)
    requires FirstWithKey(events, draft, i)
    requires match found
      case Some(j) => FirstWithKey(events, draft, j)
      case None => forall j :: 0 <= j < |events| ==> !CarriesKeyOf(events[j], draft)
    ensures found == Some(i)
  {
    hide CarriesKeyOf;
  }

  lemma {:induction false} LastFault(p: Platform, events: seq<Object>, e: Object, i: nat)
    requires i <= |events| && FirstFault(p, events, i).None?
    ensures FirstFault(p, events + [e], i) == Fault(p, events, e)
    decreases |events| - i
  {
    hide Fault;
    var longer := events + [e];
    assert longer[..i] == events[..i];
    if i < |events| {
      LastFault(p, events, e, i + 1);
    } else {
      assert longer[..i] == events && longer[i] == e;
    }
  }

  lemma ValidFirst(p: Platform, events: seq<Object>, e: Object)
    ensures !ValidEvent(p, e) ==> Fault(p, events, e) == Some(InvalidEvent)
  {
    hide ValidEvent;
  }
}
