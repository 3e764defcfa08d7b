/** The append-only, hash-linked event log: events are JSON objects, each sealed by the hash of its
    own content and linked to the hash of the event before it. */
module EventLog {
  import opened Collections
  import opened Json

  /** SHA-256 over canonical JSON, and ISO-8601 parsing. */
  datatype Platform = Platform(hash: Object -> string, time: string -> Option<int>)

  datatype LogError =
    InvalidEvent | SequenceGap | SeveralProjects | DuplicateEventId | DuplicateKey
    | BrokenLink | WrongHash | UnknownCause | KeyReused

  function ZeroHash(): string {
    seq(64, _ => '0')
  }

  predicate IsDigest(s: string) {
    |s| == 64 && forall c :: c in s ==> '0' <= c <= '9' || 'a' <= c <= 'f'
  }

  predicate ValidActor(e: Object) {
    && Field(e, "actor").JObj?
    && HasText(Field(e, "actor").fields, "id")
    && TextOf(Field(e, "actor").fields, "type") in {"user", "liaison", "project_lead", "agent", "tool", "system"}
  }

  predicate OrderedTimes(p: Platform, e: Object) {
    var occurred, recorded := p.time(TextOf(e, "occurredAt")), p.time(TextOf(e, "recordedAt"));
    occurred.Some? && recorded.Some? && occurred.value <= recorded.value
  }

  predicate ValidEvent(p: Platform, e: Object) {
    && HasText(e, "eventId") && HasText(e, "projectId") && HasText(e, "streamId")
    && HasText(e, "eventType") && HasText(e, "aggregateType") && HasText(e, "aggregateId")
    && HasText(e, "occurredAt") && HasText(e, "recordedAt") && HasText(e, "idempotencyKey")
    && HasText(e, "previousEventHash") && HasText(e, "eventHash")
    && Field(e, "sequence").JInt? && Field(e, "sequence").i >= 1
    && ValidActor(e)
    && Field(e, "payload").JObj?
    && OrderedTimes(p, e)
    && IsDigest(TextOf(e, "previousEventHash")) && IsDigest(TextOf(e, "eventHash"))
  }

  function Sealed(e: Object): Object {
    e - {"eventHash"}
  }

  function EventHash(p: Platform, e: Object): string {
    p.hash(Sealed(e))
  }

  function Seen(events: seq<Object>, key: string): set<Json> {
    set e | e in events :: Field(e, key)
  }

  /** What is wrong with event `e` after the events `earlier`, in the order the verifier looks. */
  function Fault(p: Platform, earlier: seq<Object>, e: Object): Option<LogError> {
    if !ValidEvent(p, e) then Some(InvalidEvent)
    else if Field(e, "sequence") != JInt(|earlier| + 1) then Some(SequenceGap)
    else if earlier != [] && Field(e, "projectId") != Field(earlier[0], "projectId") then Some(SeveralProjects)
    else if Field(e, "eventId") in Seen(earlier, "eventId") then Some(DuplicateEventId)
    else if Field(e, "idempotencyKey") in Seen(earlier, "idempotencyKey") then Some(DuplicateKey)
    else if TextOf(e, "previousEventHash")
         != (if earlier == [] then ZeroHash() else TextOf(earlier[|earlier| - 1], "eventHash")) then Some(BrokenLink)
    else if TextOf(e, "eventHash") != EventHash(p, e) then Some(WrongHash)
    else if Field(e, "causationId") != JNull && Field(e, "causationId") !in Seen(earlier, "eventId") then
      Some(UnknownCause)
    else None
  }

  /** The first fault at or after position `i`. */
  function FirstFault(p: Platform, events: seq<Object>, i: nat): Option<LogError>
    requires i <= |events|
    decreases |events| - i
  {
    if i == |events| then None
    else
      var fault := Fault(p, events[..i], events[i]);
      if fault.Some? then fault else FirstFault(p, events, i + 1)
  }

  ghost predicate ValidChain(p: Platform, events: seq<Object>) {
    forall i :: 0 <= i < |events| ==> Fault(p, events[..i], events[i]).None?
  }

  // ---------------------------------------------------------------- append

  datatype Appended = Appended(events: seq<Object>, event: Object, isNew: bool)

  function KeyOf(e: Object): Json {
    Field(e, "idempotencyKey")
  }

  /** The first event at or after `i` that carries this idempotency key. */
  function FindKey(events: seq<Object>, key: Json, i: nat): (r: Option<nat>)
    requires i <= |events|
    ensures r.Some? ==> i <= r.value < |events| && KeyOf(events[r.value]) == key
    ensures r.None? ==> forall j :: i <= j < |events| ==> KeyOf(events[j]) != key
    decreases |events| - i
  {
    if i == |events| then None
    else if KeyOf(events[i]) == key then Some(i)
    else FindKey(events, key, i + 1)
  }

  const STAMPS: set<string> := {"sequence", "previousEventHash", "eventHash"}

  /** An event without the fields that appending stamps on it. */
  function Comparable(e: Object): Object {
    e - STAMPS
  }

  function Stamped(p: Platform, events: seq<Object>, draft: Object): Object {
    var link := if events == [] then ZeroHash() else TextOf(events[|events| - 1], "eventHash");
    var event := draft["sequence" := JInt(|events| + 1)]["previousEventHash" := JStr(link)];
    event["eventHash" := JStr(EventHash(p, event))]
  }

  function Append(p: Platform, events: seq<Object>, draft: Object): Result<Appended, LogError> {
    var broken := FirstFault(p, events, 0);
    if broken.Some? then Failure(broken.value)
    else
      match FindKey(events, KeyOf(draft), 0)
      case Some(i) =>
        if Comparable(events[i]) != draft then Failure(KeyReused)
        else Success(Appended(events, events[i], false))
      case None =>
        var event := Stamped(p, events, draft);
        if !ValidEvent(p, event) then Failure(InvalidEvent)
        else
          var fault := FirstFault(p, events + [event], 0);
          if fault.Some? then Failure(fault.value) else Success(Appended(events + [event], event, true))
  }

  /** A run of appends; the first failure stops it. */
  function AppendAll(p: Platform, events: seq<Object>, drafts: seq<Object>): Result<seq<Object>, LogError>
    decreases |drafts|
  {
    if drafts == [] then Success(events)
    else
      match Append(p, events, drafts[0])
      case Failure(error) => Failure(error)
      case Success(a) => AppendAll(p, a.events, drafts[1..])
  }

  // ---------------------------------------------------------------- the loops

  /** Walks the chain once, remembering what it has seen. */
  method VerifyEventChain(p: Platform, events: seq<Object>) returns (fault: Option<LogError>)
    ensures fault == FirstFault(p, events, 0)
  {
    var expectedHash := ZeroHash();
    var seenIds: set<Json> := {};
    var seenKeys: set<Json> := {};
    hide ValidEvent, EventHash, ZeroHash;
    for i := 0 to |events|
      invariant FirstFault(p, events, 0) == FirstFault(p, events, i)
      invariant seenIds == Seen(events[..i], "eventId") && seenKeys == Seen(events[..i], "idempotencyKey")
      invariant expectedHash == if i == 0 then ZeroHash() else TextOf(events[i - 1], "eventHash")
    {
      var event := events[i];
      assert events[..i + 1] == events[..i] + [event];
      SeenStep(events[..i], event, "eventId");
      SeenStep(events[..i], event, "idempotencyKey");
      if !ValidEvent(p, event) { return Some(InvalidEvent); }
      if Field(event, "sequence") != JInt(i + 1) { return Some(SequenceGap); }
      if i > 0 && Field(event, "projectId") != Field(events[0], "projectId") { return Some(SeveralProjects); }
      if Field(event, "eventId") in seenIds { return Some(DuplicateEventId); }
      if Field(event, "idempotencyKey") in seenKeys { return Some(DuplicateKey); }
      if TextOf(event, "previousEventHash") != expectedHash { return Some(BrokenLink); }
      if TextOf(event, "eventHash") != EventHash(p, event) { return Some(WrongHash); }
      if Field(event, "causationId") != JNull && Field(event, "causationId") !in seenIds {
        return Some(UnknownCause);
      }
      seenIds := seenIds + {Field(event, "eventId")};
      seenKeys := seenKeys + {Field(event, "idempotencyKey")};
      expectedHash := TextOf(event, "eventHash");
    }
    fault := None;
  }

  lemma SeenStep(events: seq<Object>, e: Object, key: string)
    ensures Seen(events + [e], key) == Seen(events, key) + {Field(e, key)}
  {
    forall v | v in Seen(events, key) ensures v in Seen(events + [e], key) {
      var x :| x in events && v == Field(x, key);
      assert x in events + [e];
    }
    assert e in events + [e];
  }

  /** Looks for the key, then appends once. */
  method AppendEvent(p: Platform, history: seq<Object>, draft: Object) returns (r: Result<Appended, LogError>)
    ensures r == Append(p, history, draft)
  {
    hide Fault, FirstFault;
    var broken := VerifyEventChain(p, history);
    if broken.Some? {
      return Failure(broken.value);
    }
    for i := 0 to |history|
      invariant FindKey(history, KeyOf(draft), 0) == FindKey(history, KeyOf(draft), i)
    {
      if KeyOf(history[i]) == KeyOf(draft) {
        if Comparable(history[i]) != draft {
          return Failure(KeyReused);
        }
        return Success(Appended(history, history[i], false));
      }
    }
    var event := Stamped(p, history, draft);
    if !ValidEvent(p, event) {
      return Failure(InvalidEvent);
    }
    var fault := VerifyEventChain(p, history + [event]);
    if fault.Some? {
      return Failure(fault.value);
    }
    r := Success(Appended(history + [event], event, true));
  }
}
