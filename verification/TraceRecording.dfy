/** When the records of a run are accepted, and when a managed scenario leaves a trace. */
module TraceRecording {
  import opened Collections
  import opened Json
  import opened Orchestrator
  import opened OrchestratorProperties
  import opened Text
  import EventLog
  import EventLogProperties

  // ---------------------------------------------------------------- numbers in keys

  lemma {:induction false} DigitsOnly(n: nat)
    ensures Decimal(n) != "" && ':' !in Decimal(n)
  {
    if n < 10 {
      NoColonDigit(n);
    } else {
      DigitsOnly(n / 10);
      NoColonDigit(n % 10);
    }
  }

  lemma NoColonDigit(n: nat)
    requires n < 10
    ensures "0123456789"[n] != ':'
  {
  }

  lemma FirstColon(a: string, x: string)
    requires ':' !in a
    ensures var s := a + ":" + x; s[|a|] == ':' && forall k :: 0 <= k < |a| ==> s[k] == a[k] != ':'
  {
  }

  /** What stands before the first colon is determined. */
  lemma BeforeColon(a: string, b: string, x: string, y: string)
    requires ':' !in a && ':' !in b && a + ":" + x == b + ":" + y
    ensures a == b
  {
    FirstColon(a, x);
    FirstColon(b, y);
    var s := a + ":" + x;
    assert |a| == |b| && a == s[..|a|] && b == s[..|b|];
  }

  /** Records with different numbers have different keys. */
  lemma KeysDiffer(e: LogEntry, m: nat, e': LogEntry, n: nat, h: Header)
    requires KeyText(e, m, h) == KeyText(e', n, h)
    ensures m == n
  {
    hide Decimal;
    var prefix := h.correlationId + ":";
    var x, y := e.eventType + ":" + e.aggregateId, e'.eventType + ":" + e'.aggregateId;
    assert KeyText(e, m, h) == prefix + (Decimal(m) + ":" + x);
    assert KeyText(e', n, h) == prefix + (Decimal(n) + ":" + y);
    assert KeyText(e, m, h)[|prefix|..] == Decimal(m) + ":" + x;
    assert KeyText(e', n, h)[|prefix|..] == Decimal(n) + ":" + y;
    DigitsOnly(m);
    DigitsOnly(n);
    BeforeColon(Decimal(m), Decimal(n), x, y);
    DecimalRoundTrip(m);
    DecimalRoundTrip(n);
  }

  // ---------------------------------------------------------------- one record

  predicate NamedEntry(e: LogEntry) {
    !Blank(e.eventType) && !Blank(e.aggregateType) && !Blank(e.aggregateId)
  }

  /** The project has a name and the time can be read. */
  predicate NamedHeader(h: Header, p: EventLog.Platform) {
    !Blank(h.projectId) && !Blank(h.occurredAt) && p.time(h.occurredAt).Some?
  }

  lemma KeyIsText(e: LogEntry, number: nat, h: Header)
    ensures !Blank(KeyText(e, number, h))
  {
    hide Decimal;
    var k := |h.correlationId|;
    assert KeyText(e, number, h)[k] == ':' && !IsSpace(':');
    EventLogProperties.TextIsNotBlank(KeyText(e, number, h), k);
  }

  lemma ConstantTexts(number: nat, projectId: string)
    ensures !Blank(EventIdText(number)) && !Blank("project:" + projectId) && !Blank("reference-project-lead")
  {
    hide Padded;
    assert EventIdText(number)[0] == 'T' && ("project:" + projectId)[0] == 'p' && "reference-project-lead"[0] == 'r';
    EventLogProperties.TextIsNotBlank(EventIdText(number), 0);
    EventLogProperties.TextIsNotBlank("project:" + projectId, 0);
    EventLogProperties.TextIsNotBlank("reference-project-lead", 0);
  }

  lemma DraftTexts(e: LogEntry, number: nat, causation: string, h: Header)
    ensures var d := EventDraft(e, number, causation, h);
      && (HasText(d, "eventType") <==> !Blank(e.eventType))
      && (HasText(d, "aggregateType") <==> !Blank(e.aggregateType))
      && (HasText(d, "aggregateId") <==> !Blank(e.aggregateId))
      && (HasText(d, "projectId") <==> !Blank(h.projectId))
      && (HasText(d, "occurredAt") <==> !Blank(h.occurredAt)) && TextOf(d, "occurredAt") == h.occurredAt
      && (HasText(d, "recordedAt") <==> !Blank(h.occurredAt)) && TextOf(d, "recordedAt") == h.occurredAt
  {
    hide Blank, EventIdText, KeyText;
  }

  lemma DraftConstants(e: LogEntry, number: nat, causation: string, h: Header)
    ensures var d := EventDraft(e, number, causation, h);
      HasText(d, "eventId") && HasText(d, "streamId") && HasText(d, "idempotencyKey")
      && EventLog.ValidActor(d) && Field(d, "payload").JObj?
      && Field(d, "causationId") == if causation == "" then JNull else JStr(causation)
  {
    hide Blank, EventIdText, KeyText;
    ConstantTexts(number, h.projectId);
    KeyIsText(e, number, h);
    var d := EventDraft(e, number, causation, h);
    var actor: Object := map["type" := JStr("project_lead"), "id" := JStr("reference-project-lead")];
    assert d["actor"] == JObj(actor);
    assert TextOf(actor, "type") == "project_lead" && HasText(actor, "id");
  }

  lemma DraftIsValidIff(e: LogEntry, number: nat, causation: string, h: Header, p: EventLog.Platform)
    ensures EventLogProperties.ValidDraft(p, EventDraft(e, number, causation, h)) <==>
      NamedEntry(e) && NamedHeader(h, p)
  {
    hide EventDraft, HasText, TextOf, Blank, EventLog.ValidActor;
    DraftTexts(e, number, causation, h);
    DraftConstants(e, number, causation, h);
  }

  /** After the records before it, a draft has a new key and a new id, the same project, and its cause. */
  lemma DraftFits(events: seq<Object>, log: seq<LogEntry>, e: LogEntry, h: Header)
    requires Mirrors(events, log, h)
    ensures var d := DraftAt(log + [e], |log|, h);
      EventLog.KeyOf(d) !in EventLogProperties.Keys(events) && EventLogProperties.FitsAfter(events, d)
  {
    hide EventDraft, EventIdText, KeyText, Mirrors;
    var n := |log|;
    var cause := if n == 0 then "" else EventIdText(n);
    var d := DraftAt(log + [e], n, h);
    assert d == EventDraft(e, n + 1, cause, h);
    DraftFields(e, n + 1, cause, h);
    DraftConstants(e, n + 1, cause, h);
    MirroredKeys(events, log, h, e);
    if n > 0 {
      MirroredCause(events, log, h);
    } else {
      MirroredNothing(events, log, h);
    }
  }

  lemma MirroredNothing(events: seq<Object>, log: seq<LogEntry>, h: Header)
    requires Mirrors(events, log, h) && log == []
    ensures events == []
  {
  }

  lemma MirroredKeys(events: seq<Object>, log: seq<LogEntry>, h: Header, e: LogEntry)
    requires Mirrors(events, log, h)
    ensures JStr(KeyText(e, |log| + 1, h)) !in EventLogProperties.Keys(events)
    ensures JStr(EventIdText(|log| + 1)) !in EventLog.Seen(events, "eventId")
  {
    hide KeyText, EventIdText;
    forall x | x in events
      ensures Field(x, "idempotencyKey") != JStr(KeyText(e, |log| + 1, h))
      ensures Field(x, "eventId") != JStr(EventIdText(|log| + 1))
    {
      var i :| 0 <= i < |events| && events[i] == x;
      assert Records(events[i], log[i], i + 1, h);
      if KeyText(e, |log| + 1, h) == KeyText(log[i], i + 1, h) {
        KeysDiffer(e, |log| + 1, log[i], i + 1, h);
      }
      if EventIdText(|log| + 1) == EventIdText(i + 1) {
        EventIdsDiffer(|log| + 1, i + 1);
      }
    }
  }

  lemma MirroredCause(events: seq<Object>, log: seq<LogEntry>, h: Header)
    requires Mirrors(events, log, h) && log != []
    ensures JStr(EventIdText(|log|)) in EventLog.Seen(events, "eventId") && EventIdText(|log|) != ""
    ensures events != [] && Field(events[0], "projectId") == JStr(h.projectId)
  {
    hide KeyText, Padded;
    assert Records(events[|log| - 1], log[|log| - 1], |log|, h);
    assert events[|log| - 1] in events;
    assert Records(events[0], log[0], 1, h);
  }

  // ---------------------------------------------------------------- all records

  /** The records of a run are accepted exactly when each has a type and a named subject, the project has a
      name and the time can be read: numbers, keys, causes, links and hashes never cause a refusal. */
  lemma {:induction false} RecordedIff(log: seq<LogEntry>, h: Header, p: EventLog.Platform)
    requires EventLogProperties.Digests(p) && log != []
    ensures History(log, h, p).Some? <==> NamedHeader(h, p) && forall e :: e in log ==> NamedEntry(e)
    decreases |log|
  {
    hide History, EventLog.Append, EventDraft, NamedEntry, NamedHeader, Mirrors, EventLog.ValidChain,
      EventLogProperties.Digests, EventLogProperties.ValidDraft, EventLogProperties.FitsAfter;
    var n := |log| - 1;
    var front := log[..n];
    assert log == front + [log[n]];
    HistoryStep(front, log[n], h, p);
    if front == [] {
      EmptyHistory(h, p);
    } else {
      RecordedIff(front, h, p);
    }
    if History(front, h, p).Some? {
      var before := History(front, h, p).value;
      HistoryMirrorsLog(front, h, p);
      DraftFits(before, front, log[n], h);
      var d := DraftAt(log, n, h);
      EventLogProperties.NewKeyIsAppendedIff(p, before, d);
      DraftIsValidIff(log[n], n + 1, if n == 0 then "" else EventIdText(n), h, p);
    }
  }

  // ---------------------------------------------------------------- whole runs

  /** The run of an item is recorded once its adapter was negotiated, whether or not one was found. */
  predicate NamesItsRun(prep: Preparation) {
    prep.NoAdapter? || prep.Ready?
  }

  /** What the records of an item are about has a name. */
  predicate NamedItem(item: WorkItem, prep: Preparation) {
    !Blank(item.candidate.workPackageId) && (NamesItsRun(prep) ==> !Blank(RunLabel(item)))
  }

  /** Everything the records of a course are about has a name. */
  ghost predicate NamedCourse(sc: Scenario, c: Course)
    requires |c.preps| == |sc.work|
  {
    && (forall k :: 0 <= k < |sc.work| ==> NamedItem(sc.work[k], c.preps[k]))
    && (sc.integration.Some? ==> !Blank(BatchLabel(sc.integration.value)))
  }

  ghost predicate AllNamed(log: seq<LogEntry>) {
    forall e :: e in log ==> NamedEntry(e)
  }

  lemma AllNamedAppend(a: seq<LogEntry>, b: seq<LogEntry>)
    ensures AllNamed(a + b) <==> AllNamed(a) && AllNamed(b)
  {
    forall e | e in a || e in b ensures e in a + b {
    }
  }

  lemma {:induction false} AllNamedFlatten(logs: seq<seq<LogEntry>>)
    ensures AllNamed(Flatten(logs)) <==> forall k :: 0 <= k < |logs| ==> AllNamed(logs[k])
  {
    hide AllNamed;
    if logs == [] {
      NothingNamed();
    } else {
      AllNamedFlatten(logs[1..]);
      AllNamedAppend(logs[0], Flatten(logs[1..]));
      assert forall k :: 0 < k < |logs| ==> logs[k] == logs[1..][k - 1];
      assert forall k :: 0 <= k < |logs[1..]| ==> logs[1..][k] == logs[k + 1];
    }
  }

  lemma NothingNamed()
    ensures AllNamed([])
  {
  }

  /** A record whose type and kind of subject are words is named exactly when its subject is. */
  lemma WordsAreNamed(e: LogEntry)
    requires e.eventType != "" && 'a' <= e.eventType[0] <= 'z'
    requires e.aggregateType != "" && 'a' <= e.aggregateType[0] <= 'z'
    ensures AllNamed([e]) <==> !Blank(e.aggregateId)
  {
    hide Blank;
    EventLogProperties.TextIsNotBlank(e.eventType, 0);
    EventLogProperties.TextIsNotBlank(e.aggregateType, 0);
    assert e in [e];
  }

  lemma PrepareLogNamed(item: WorkItem, prep: Preparation)
    ensures AllNamed(PrepareLog(item, prep)) <==> NamedItem(item, prep)
  {
    hide Blank, DecisionText, Strings, AllNamed;
    var first := AuthorizedEntry(item, prep.authorization);
    WordsAreNamed(first);
    NothingNamed();
    if prep.Unauthorized? {
      assert EquipLog(item, prep) == [];
    } else {
      WordsAreNamed(EquipLog(item, prep)[0]);
      assert EquipLog(item, prep) == [EquipLog(item, prep)[0]];
    }
    AllNamedAppend([first], EquipLog(item, prep));
  }

  lemma RunLogNamed(item: WorkItem, run: Execution)
    requires run.Ran? ==> !Blank(item.candidate.workPackageId) && !Blank(RunLabel(item))
    ensures AllNamed(RunLog(item, run))
  {
    hide Blank, RunStatusText, OutcomeText, AllNamed;
    NothingNamed();
    if run.Ran? {
      var first, second := DispatchedEntry(item, run.digest), CompletedEntry(item, run.result);
      var gate := GateLog(item, run.gate);
      WordsAreNamed(first);
      WordsAreNamed(second);
      if run.gate.Some? { WordsAreNamed(GateEntry(item, run.gate.value.outcome)); }
      AllNamedAppend([first], [second]);
      AllNamedAppend([first, second], gate);
      assert [first] + [second] == [first, second];
    }
  }

  lemma EndsNamed(sc: Scenario, c: Course)
    requires !Blank(sc.projectId) && |c.preps| == |sc.work| && |c.runs| == |sc.work|
    ensures AllNamed([Started(sc)]) && AllNamed(PlanLog(sc, c.planning))
    ensures AllNamed([LastEntry(sc, StatusOf(c.preps, c.runs, c.integration))])
  {
    hide Blank, Strings, StatusOf, StatusText, AllNamed;
    WordsAreNamed(Started(sc));
    NothingNamed();
    if c.planning.Planned? { WordsAreNamed(PlannedEntry(sc.projectId, c.planning.plan)); }
    WordsAreNamed(LastEntry(sc, StatusOf(c.preps, c.runs, c.integration)));
  }

  lemma IntegrationNamed(sc: Scenario, done: seq<Completion>, i: Integration)
    requires i == NotRequested <==> sc.integration.None?
    ensures AllNamed(IntegrationLog(sc.integration, done, i))
       <==> (sc.integration.Some? ==> !Blank(BatchLabel(sc.integration.value)))
  {
    hide Blank, Strings, BatchText, AllNamed;
    NothingNamed();
    var log := IntegrationLog(sc.integration, done, i);
    if log != [] {
      WordsAreNamed(log[0]);
      assert log == [log[0]];
    }
  }

  /** The records before and after the runs, as the parts of the log. */
  lemma LogIsNamedIff(sc: Scenario, c: Course)
    requires !Blank(sc.projectId) && |c.preps| == |sc.work| && |c.runs| == |sc.work|
    requires c.integration == NotRequested <==> sc.integration.None?
    requires forall k :: 0 <= k < |sc.work| && c.runs[k].Ran? ==> c.preps[k].Ready?
    ensures AllNamed(LogOf(sc, c)) <==> NamedCourse(sc, c)
  {
    hide Blank, AllNamed, PrepareLog, RunLog, Started, PlanLog, IntegrationLog, LastEntry, StatusOf, Completions,
      Flatten, NamedItem, BatchLabel;
    forall k | 0 <= k < |sc.work| ensures
      && (AllNamed(PrepareLogs(sc.work, c.preps)[k]) <==> NamedItem(sc.work[k], c.preps[k]))
      && (NamedItem(sc.work[k], c.preps[k]) ==> AllNamed(RunLogs(sc.work, c.runs)[k]))
    {
      PrepareLogNamed(sc.work[k], c.preps[k]);
      if NamedItem(sc.work[k], c.preps[k]) {
        NamedItemRuns(sc.work[k], c.preps[k]);
        RunLogNamed(sc.work[k], c.runs[k]);
      }
    }
    AllNamedFlatten(PrepareLogs(sc.work, c.preps));
    AllNamedFlatten(RunLogs(sc.work, c.runs));
    EndsNamed(sc, c);
    IntegrationNamed(sc, Completions(sc.work, c.runs), c.integration);
    var a, b := [Started(sc)] + Flatten(PrepareLogs(sc.work, c.preps)), PlanLog(sc, c.planning);
    var r := Flatten(RunLogs(sc.work, c.runs));
    var i := IntegrationLog(sc.integration, Completions(sc.work, c.runs), c.integration);
    AllNamedAppend([Started(sc)], Flatten(PrepareLogs(sc.work, c.preps)));
    AllNamedAppend(a, b);
    AllNamedAppend(a + b, r);
    AllNamedAppend(a + b + r, i);
    AllNamedAppend(a + b + r + i, [LastEntry(sc, StatusOf(c.preps, c.runs, c.integration))]);
  }

  lemma NamedItemRuns(item: WorkItem, prep: Preparation)
    requires NamedItem(item, prep)
    ensures !Blank(item.candidate.workPackageId) && (prep.Ready? ==> !Blank(RunLabel(item)))
  {
    hide Blank;
  }

  /** A managed scenario leaves a trace exactly when its clock can be read, nothing outside the log raises and
      whatever is recorded has a name: numbers, keys, links and the self-check never end a run. */
  lemma TracedIffPursued(s: Services, sc: Scenario, p: EventLog.Platform)
    requires EventLogProperties.Digests(p) && ToManage(sc)
    ensures Execute(s, sc, p).Some? <==>
      p.time(sc.now).Some? && Pursue(s, sc, p).Some? && NamedCourse(sc, Pursue(s, sc, p).value)
    ensures Execute(s, sc, p).Some? ==>
      var c, t := Pursue(s, sc, p).value, Execute(s, sc, p).value;
      History(LogOf(sc, c), HeaderOf(sc), p) == Some(t.events) && t == TraceOf(sc, c, t.events)
  {
    hide Pursue, History, LogOf, WorkTraces, StatusOf, StatusIn, ValidTrace, Blank, EventLogProperties.Digests,
      NamedEntry, NamedCourse;
    if Pursue(s, sc, p).Some? {
      var c := Pursue(s, sc, p).value;
      IntegrationMatches(s, sc, p, c);
      forall k | 0 <= k < |sc.work| && c.runs[k].Ran? ensures c.preps[k].Ready? {
        ItemFacts(s, sc, p, c, k);
      }
      LogIsNamedIff(sc, c);
      LogIsNotEmpty(sc, c);
      RecordedIff(LogOf(sc, c), HeaderOf(sc), p);
      if History(LogOf(sc, c), HeaderOf(sc), p).Some? {
        SelfCheckNeverFails(s, sc, p, c, History(LogOf(sc, c), HeaderOf(sc), p).value);
      }
    }
  }
}
