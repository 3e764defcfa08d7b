/** The orchestrator as its loops run it: a recorder that appends to the history in place, one pass that
    prepares every item, one pass that runs what was selected, and the final judgement. */
module OrchestratorEngine {
  import opened Collections
  import opened Json
  import opened Text
  import opened Orders
  import opened Orchestrator
  import opened OrchestratorProperties
  import EventLog
  import Scheduler
  import SchedulerEngine
  import EvidenceGates

  /** Once a record was refused, no longer log has a history. */
  lemma {:induction false} RefusedStaysRefused(log: seq<LogEntry>, more: seq<LogEntry>, h: Header, p: EventLog.Platform)
    requires History(log, h, p).None?
    ensures History(log + more, h, p).None?
    decreases |more|
  {
    hide History;
    if more == [] {
      assert log + more == log;
    } else {
      var n := |more| - 1;
      RefusedStaysRefused(log, more[..n], h, p);
      assert (log + more)[..|log + more| - 1] == log + more[..n];
      if History(log + more, h, p).Some? {
        HistorySnoc(log + more, h, p);
      }
    }
  }

  /** The history of the events recorded so far, its next number and its last event. */
  class Recorder {
    const header: Header
    const platform: EventLog.Platform
    var histories: seq<Object>
    var eventNumber: nat
    var lastEventId: string
    ghost var log: seq<LogEntry>

    ghost predicate Valid()
      reads this
    {
      && History(log, header, platform) == Some(histories)
      && eventNumber == |log| + 1
      && lastEventId == if log == [] then "" else EventIdText(|log|)
    }

    constructor (h: Header, p: EventLog.Platform)
      ensures Valid() && log == [] && header == h && platform == p
    {
      header, platform := h, p;
      histories, eventNumber, lastEventId, log := [], 1, "", [];
      EmptyHistory(h, p);
    }

    /** Appends one event, caused by the last one; a refused append changes nothing. */
    method Record(e: LogEntry) returns (ok: bool)
      requires Valid()
      modifies this
      ensures Valid()
      ensures ok == History(old(log) + [e], header, platform).Some?
      ensures log == if ok then old(log) + [e] else old(log)
      ensures !ok ==> histories == old(histories)
    {
      hide History, EventLog.Append, EventDraft, EventIdText, Mirrors;
      var draft := EventDraft(e, eventNumber, lastEventId, header);
      assert draft == DraftAt(log + [e], |log|, header);
      HistoryStep(log, e, header, platform);
      HistoryMirrorsLog(log, header, platform);
      var appended := EventLog.AppendEvent(platform, histories, draft);
      ok := appended.Success?;
      if ok {
        OneMoreRecord(histories, log, e, header, platform);
        histories := appended.value.events;
        lastEventId := TextOf(appended.value.event, "eventId");
        eventNumber := eventNumber + 1;
        log := log + [e];
      }
    }
  }

  // ---------------------------------------------------------------- first pass

  /** What the first pass keeps of one item. */
  datatype PreparedItem = PreparedItem(
    trace: WorkTrace, negotiated: Option<Negotiated>, hardBlock: bool, decisionRequired: bool)

  function SummaryOf(item: WorkItem, prep: Preparation): PreparedItem {
    PreparedItem(WorkTraceOf(item, prep, NotRun), if prep.Ready? then Some(prep.negotiated) else None,
                 HardBlock(prep), NeedsDecision(prep))
  }

  /** The recorder went through with exactly these records: it does when nothing raised and their history
      can be written. */
  ghost predicate Wrote(r: Recorder, before: seq<LogEntry>, more: Option<seq<LogEntry>>, ok: bool)
    reads r
  {
    && (ok <==> more.Some? && History(before + more.value, r.header, r.platform).Some?)
    && (ok ==> r.Valid() && r.log == before + more.value)
  }

  /** When a first part of the records is refused, so is the whole. */
  lemma CannotWrite(before: seq<LogEntry>, first: seq<LogEntry>, rest: seq<LogEntry>, h: Header, p: EventLog.Platform)
    requires History(before + first, h, p).None?
    ensures History(before + (first + rest), h, p).None?
  {
    hide History;
    AppendAssociates(before, first, rest);
    RefusedStaysRefused(before + first, rest, h, p);
  }

  function EquippedLog(s: Services, item: WorkItem, a: Authorization): Option<seq<LogEntry>> {
    match Equip(s, item, a)
    case None => None
    case Some(prep) => Some(EquipLog(item, prep))
  }

  /** Compiles the context of an authorized item and negotiates its adapter, recording the outcome. */
  method EquipItem(s: Services, rec: Recorder, item: WorkItem, a: Authorization) returns (r: Option<PreparedItem>)
    requires rec.Valid() && MayProceed(a.decision)
    modifies rec
    ensures Wrote(rec, old(rec.log), EquippedLog(s, item, a), r.Some?)
    ensures r.Some? ==> Equip(s, item, a).Some? && r.value == SummaryOf(item, Equip(s, item, a).value)
  {
    hide History, RejectedEntry, NegotiatedEntry, MayProceed;
    var id := item.candidate.workPackageId;
    var compiled := s.compile(item);
    if compiled.Failure? {
      var ok := rec.Record(RejectedEntry("context.rejected", "work-package", id, compiled.error));
      if !ok { return None; }
      return Some(PreparedItem(
        WorkTrace(id, a.decision, a.explanation, None, None, NotEligible, None, None,
                  ["context compilation failed: " + compiled.error]),
        None, true, false));
    }
    var manifest := compiled.value;
    var negotiation := s.negotiate(item, manifest, a.decision);
    if negotiation.Failure? {
      var ok := rec.Record(RejectedEntry("capability.rejected", "agent-run", RunLabel(item), negotiation.error));
      if !ok { return None; }
      return Some(PreparedItem(
        WorkTrace(id, a.decision, a.explanation, Some(manifest.manifestId), None, NotEligible, None, None,
                  ["capability negotiation failed: " + negotiation.error]),
        None, true, false));
    }
    var n := negotiation.value;
    if item.givenRunId.None? { return None; }
    var ok := rec.Record(NegotiatedEntry(item, n));
    if !ok { return None; }
    r := Some(PreparedItem(
      WorkTrace(id, a.decision, a.explanation, Some(manifest.manifestId), Some(n.adapterId), Pending, None, None,
                n.otherReasons),
      Some(n), false, false));
  }

  function PreparedLog(s: Services, item: WorkItem): Option<seq<LogEntry>> {
    match Prepare(s, item)
    case None => None
    case Some(prep) => Some(PrepareLog(item, prep))
  }

  /** Authorizes one item and, if it may proceed, equips it. */
  method PrepareItem(s: Services, rec: Recorder, item: WorkItem) returns (r: Option<PreparedItem>)
    requires rec.Valid()
    modifies rec
    ensures Wrote(rec, old(rec.log), PreparedLog(s, item), r.Some?)
    ensures r.Some? ==> Prepare(s, item).Some? && r.value == SummaryOf(item, Prepare(s, item).value)
  {
    hide History, AuthorizedEntry, EquipLog, Equip;
    ghost var before := rec.log;
    var authorized := s.authorize(item);
    if authorized.None? { return None; }
    var a := authorized.value;
    var entry := AuthorizedEntry(item, a);
    EquippedAuthorization(s, item, a);
    var ok := rec.Record(entry);
    ghost var more := if MayProceed(a.decision) then EquippedLog(s, item, a) else Some([]);
    if !ok {
      if more.Some? { CannotWrite(before, [entry], more.value, rec.header, rec.platform); }
      return None;
    }
    if more.Some? { AppendAssociates(before, [entry], more.value); }
    if !MayProceed(a.decision) {
      assert before + [entry] + [] == before + [entry];
      return Some(PreparedItem(
        WorkTrace(item.candidate.workPackageId, a.decision, a.explanation, None, None, NotEligible, None, None,
                  [a.explanation]),
        None, a.decision == Blocked, a.decision == UserDecisionRequired));
    }
    r := EquipItem(s, rec, item, a);
  }

  lemma EquippedAuthorization(s: Services, item: WorkItem, a: Authorization)
    ensures Equip(s, item, a).Some? ==> Equip(s, item, a).value.authorization == a
    ensures EquipLog(item, Unauthorized(a)) == []
  {
  }

  /** What the first pass has gathered after some items. */
  datatype FirstPass = FirstPass(
    traces: map<string, WorkTrace>, prepared: map<string, Negotiated>, candidates: seq<Scheduler.Candidate>,
    hardBlock: bool, decisionRequired: bool)

  function Id(item: WorkItem): string {
    item.candidate.workPackageId
  }

  /** The traces hold, for each item, its preparation and its run so far. */
  ghost predicate Traced(
      work: seq<WorkItem>, preps: seq<Preparation>, runs: seq<Execution>, traces: map<string, WorkTrace>)
    requires |work| == |preps|
  {
    && |runs| == |work|
    && traces.Keys == (set x | x in work :: Id(x))
    && forall k :: 0 <= k < |work| ==> traces[Id(work[k])] == WorkTraceOf(work[k], preps[k], runs[k])
  }

  ghost predicate Kept(work: seq<WorkItem>, preps: seq<Preparation>, prepared: map<string, Negotiated>)
    requires |work| == |preps|
  {
    && prepared.Keys <= (set x | x in work :: Id(x))
    && forall k :: 0 <= k < |work| ==>
      (if preps[k].Ready? then Id(work[k]) in prepared && prepared[Id(work[k])] == preps[k].negotiated
       else Id(work[k]) !in prepared)
  }

  function NoRuns(n: nat): seq<Execution> {
    seq(n, _ => NotRun)
  }

  ghost predicate Gathered(s: Services, work: seq<WorkItem>, preps: seq<Preparation>, f: FirstPass) {
    && PrepareAll(s, work) == Some(preps)
    && NoDuplicates(Map(Package(), work))
    && Traced(work, preps, NoRuns(|work|), f.traces) && Kept(work, preps, f.prepared)
    && f.candidates == ReadyCandidates(work, preps)
    && f.hardBlock == (exists x :: x in preps && HardBlock(x))
    && f.decisionRequired == (exists x :: x in preps && NeedsDecision(x))
  }

  lemma GatherNothing(s: Services)
    ensures Gathered(s, [], [], FirstPass(map[], map[], [], false, false))
  {
  }

  /** The state of the first pass after one more item. */
  function Absorb(f: FirstPass, item: WorkItem, x: PreparedItem): FirstPass {
    FirstPass(
      f.traces[Id(item) := x.trace],
      if x.negotiated.Some? then f.prepared[Id(item) := x.negotiated.value] else f.prepared,
      f.candidates + (if x.negotiated.Some? then [item.candidate.(adapterId := x.negotiated.value.adapterId)] else []),
      f.hardBlock || x.hardBlock, f.decisionRequired || x.decisionRequired)
  }

  lemma IdsGrow(work: seq<WorkItem>, item: WorkItem)
    ensures (set x | x in work + [item] :: Id(x)) == (set x | x in work :: Id(x)) + {Id(item)}
  {
    forall x | x in work ensures x in work + [item] {
    }
    assert item in work + [item];
  }

  lemma DistinctIdsGrow(work: seq<WorkItem>, item: WorkItem)
    ensures NoDuplicates(Map(Package(), work + [item])) <==>
      NoDuplicates(Map(Package(), work)) && Id(item) !in (set x | x in work :: Id(x))
  {
    IndexStep(work, item, Package());
    IndexFacts(work, Package());
    if Id(item) in Map(Package(), work) {
      var k :| 0 <= k < |work| && Map(Package(), work)[k] == Id(item);
      assert work[k] in work;
    }
    forall x | x in work ensures Id(x) in Map(Package(), work) {
      MapMembers(Package(), work, x);
    }
  }

  lemma TracedStep(
    work: seq<WorkItem>, preps: seq<Preparation>, runs: seq<Execution>, traces: map<string, WorkTrace>,
    item: WorkItem, prep: Preparation, run: Execution)
    requires |work| == |preps| && Traced(work, preps, runs, traces) && Id(item) !in traces
    ensures Traced(work + [item], preps + [prep], runs + [run], traces[Id(item) := WorkTraceOf(item, prep, run)])
  {
    hide WorkTraceOf;
    IdsGrow(work, item);
    forall k | 0 <= k < |work| ensures Id(work[k]) in traces {
      assert work[k] in work;
    }
  }

  lemma KeptStep(
    work: seq<WorkItem>, preps: seq<Preparation>, prepared: map<string, Negotiated>, item: WorkItem, prep: Preparation)
    requires |work| == |preps| && Kept(work, preps, prepared) && Id(item) !in (set x | x in work :: Id(x))
    ensures Kept(work + [item], preps + [prep],
                 if prep.Ready? then prepared[Id(item) := prep.negotiated] else prepared)
  {
    IdsGrow(work, item);
    forall k | 0 <= k < |work| ensures Id(work[k]) != Id(item) {
      assert work[k] in work;
    }
  }

  lemma GatherStep(
      s: Services, work: seq<WorkItem>, preps: seq<Preparation>, f: FirstPass, item: WorkItem, prep: Preparation)
    requires Gathered(s, work, preps, f) && Prepare(s, item) == Some(prep) && Id(item) !in f.traces
    ensures Gathered(s, work + [item], preps + [prep], Absorb(f, item, SummaryOf(item, prep)))
  {
    hide Traced, Kept, WorkTraceOf, HardBlock, NeedsDecision, Prepare, NoDuplicates, PrepareAll, ReadyCandidates;
    var longer, preps' := work + [item], preps + [prep];
    OneMorePrepared(s, work, preps, item, prep);
    TracedIds(work, preps, NoRuns(|work|), f.traces);
    DistinctIdsGrow(work, item);
    TracedStep(work, preps, NoRuns(|work|), f.traces, item, prep, NotRun);
    assert NoRuns(|work|) + [NotRun] == NoRuns(|longer|);
    KeptStep(work, preps, f.prepared, item, prep);
    assert forall x :: x in preps' <==> x in preps || x == prep;
  }

  lemma OneMorePrepared(s: Services, work: seq<WorkItem>, preps: seq<Preparation>, item: WorkItem, prep: Preparation)
    requires PrepareAll(s, work) == Some(preps) && Prepare(s, item) == Some(prep)
    ensures PrepareAll(s, work + [item]) == Some(preps + [prep])
    ensures ReadyCandidates(work + [item], preps + [prep])
         == ReadyCandidates(work, preps) + (if prep.Ready? then [Prepared(item, prep)] else [])
  {
    hide Prepare, Prepared;
    var longer, preps' := work + [item], preps + [prep];
    assert longer[..|longer| - 1] == work && preps'[..|preps'| - 1] == preps;
  }

  lemma TracedIds(work: seq<WorkItem>, preps: seq<Preparation>, runs: seq<Execution>, traces: map<string, WorkTrace>)
    requires |work| == |preps| && Traced(work, preps, runs, traces)
    ensures traces.Keys == (set x | x in work :: Id(x))
  {
  }

  lemma {:induction false} PreparedPrefix(s: Services, work: seq<WorkItem>, i: nat)
    requires i <= |work| && PrepareAll(s, work).Some?
    ensures PrepareAll(s, work[..i]) == Some(PrepareAll(s, work).value[..i])
  {
    hide Prepare;
    if i < |work| {
      PreparedPrefix(s, work[..|work| - 1], i);
      assert work[..|work| - 1][..i] == work[..i];
      var front := PrepareAll(s, work[..|work| - 1]).value;
      assert PrepareAll(s, work).value[..i] == front[..i];
    } else {
      assert work[..i] == work && PrepareAll(s, work).value[..i] == PrepareAll(s, work).value;
    }
  }

  lemma PrepareLogsSplit(work: seq<WorkItem>, preps: seq<Preparation>, i: nat)
    requires |work| == |preps| && i < |work|
    ensures var all := PrepareLogs(work, preps);
      Flatten(all)
      == Flatten(PrepareLogs(work[..i], preps[..i])) + PrepareLog(work[i], preps[i]) + Flatten(all[i + 1..])
  {
    hide PrepareLog;
    FlattenAround(PrepareLogs(work, preps), i);
    assert PrepareLogs(work, preps)[..i] == PrepareLogs(work[..i], preps[..i]);
  }

  /** If one item is refused, no run of the scenario gets through its first pass. */
  lemma FirstPassRefused(
      s: Services, before: seq<LogEntry>, work: seq<WorkItem>, i: nat, h: Header, p: EventLog.Platform)
    requires i < |work| && PrepareAll(s, work[..i]).Some?
    requires var prep := Prepare(s, work[i]);
      prep.Some? ==> History(before + Flatten(PrepareLogs(work[..i], PrepareAll(s, work[..i]).value))
                             + PrepareLog(work[i], prep.value), h, p).None?
    ensures PrepareAll(s, work).Some? ==>
      History(before + Flatten(PrepareLogs(work, PrepareAll(s, work).value)), h, p).None?
  {
    hide History, Prepare, PrepareLog, Flatten;
    if PrepareAll(s, work).Some? {
      var preps := PrepareAll(s, work).value;
      EachPrepared(s, work);
      PreparedPrefix(s, work, i);
      PrepareLogsSplit(work, preps, i);
      var done := before + Flatten(PrepareLogs(work[..i], preps[..i])) + PrepareLog(work[i], preps[i]);
      var rest := Flatten(PrepareLogs(work, preps)[i + 1..]);
      assert before + Flatten(PrepareLogs(work, preps)) == done + rest;
      RefusedStaysRefused(done, rest, h, p);
    }
  }

  /** What the first pass writes, if nothing raises and no two items share a package. */
  function FirstPassLog(s: Services, work: seq<WorkItem>): Option<seq<LogEntry>> {
    match PrepareAll(s, work)
    case None => None
    case Some(preps) =>
      if NoDuplicates(Map(Package(), work)) then Some(Flatten(PrepareLogs(work, preps))) else None
  }

  /** The state of the first pass after some items. */
  ghost predicate PassedFirst(
    s: Services, rec: Recorder, before: seq<LogEntry>, work: seq<WorkItem>, preps: seq<Preparation>, f: FirstPass)
    reads rec
  {
    && |preps| == |work| && Gathered(s, work, preps, f)
    && rec.Valid() && rec.log == before + Flatten(PrepareLogs(work, preps))
  }

  /** Prepares the items in order; the first exception or refused record ends it. */
  method PrepareWork(s: Services, rec: Recorder, work: seq<WorkItem>) returns (r: Option<FirstPass>)
    requires rec.Valid()
    modifies rec
    ensures Wrote(rec, old(rec.log), FirstPassLog(s, work), r.Some?)
    ensures r.Some? ==> PrepareAll(s, work).Some? && Gathered(s, work, PrepareAll(s, work).value, r.value)
  {
    hide Gathered, PrepareAll, Prepare, PrepareLogs, PrepareLog, Flatten, History, NoDuplicates, SummaryOf, Map, Absorb;
    ghost var before, preps := rec.log, [];
    var f := FirstPass(map[], map[], [], false, false);
    GatherNothing(s);
    FirstPassEmpty(before, work);
    for i := 0 to |work|
      invariant PassedFirst(s, rec, before, work[..i], preps, f)
    {
      var item := work[i];
      TakeOneMore(work, i);
      GatheredFacts(s, work[..i], preps, f);
      DistinctIdsGrow(work[..i], item);
      if Id(item) in f.traces {
        if NoDuplicates(Map(Package(), work)) {
          PrefixDistinct(Package(), work, i + 1);
        }
        return None;
      }
      var x := PrepareItem(s, rec, item);
      if x.None? {
        FirstPassRefused(s, before, work, i, rec.header, rec.platform);
        return None;
      }
      ghost var prep := Prepare(s, item).value;
      GatherStep(s, work[..i], preps, f, item, prep);
      OneMoreLog(before, work[..i], preps, item, prep);
      f := Absorb(f, item, x.value);
      preps := preps + [prep];
    }
    assert work[..|work|] == work;
    GatheredFacts(s, work, preps, f);
    r := Some(f);
  }

  lemma FirstPassEmpty(before: seq<LogEntry>, work: seq<WorkItem>)
    ensures work[..0] == [] && before + Flatten(PrepareLogs([], [])) == before
  {
  }

  lemma GatheredFacts(s: Services, work: seq<WorkItem>, preps: seq<Preparation>, f: FirstPass)
    requires Gathered(s, work, preps, f)
    ensures PrepareAll(s, work) == Some(preps) && NoDuplicates(Map(Package(), work))
    ensures f.traces.Keys == (set x | x in work :: Id(x))
  {
  }

  lemma OneMoreLog(
      before: seq<LogEntry>, work: seq<WorkItem>, preps: seq<Preparation>, item: WorkItem, prep: Preparation)
    requires |work| == |preps|
    ensures before + Flatten(PrepareLogs(work + [item], preps + [prep]))
         == before + Flatten(PrepareLogs(work, preps)) + PrepareLog(item, prep)
  {
    hide PrepareLog;
    PrepareLogsSplit(work + [item], preps + [prep], |work|);
    assert (work + [item])[..|work|] == work && (preps + [prep])[..|work|] == preps;
  }

  // ---------------------------------------------------------------- second pass

  /** What the second pass keeps of one run. */
  datatype RanItem = RanItem(trace: WorkTrace, failure: bool, completion: Option<Completion>)

  function CompletionOf(item: WorkItem, run: Execution): Option<Completion> {
    if AcceptedRun(run) && item.integrates then Some(Completion(Id(item), run.result.evidenceIds)) else None
  }

  function RanSummary(item: WorkItem, prep: Preparation, run: Execution): RanItem {
    RanItem(WorkTraceOf(item, prep, run), FailsRun(run), CompletionOf(item, run))
  }

  /** How one run is judged. */
  datatype Verdict = Verdict(gateOutcome: Option<EvidenceGates.GateOutcome>, reasons: seq<string>, failure: bool)

  function JudgedLog(s: Services, item: WorkItem, result: RunResult): Option<seq<LogEntry>> {
    match GateFor(s, item, result)
    case None => None
    case Some(gate) => Some(GateLog(item, gate))
  }

  function VerdictOn(digest: string, result: RunResult, gate: Option<GateReport>, reasons: seq<string>): Verdict {
    var run := Ran(digest, result, gate);
    Verdict(GateOutcomeIn(run), reasons + RunReasons(run), FailsRun(run))
  }

  /** The gate of a completed run decides; a completed run without one, or any other end, is a failure. */
  method JudgeRun(s: Services, rec: Recorder, item: WorkItem, digest: string, result: RunResult, reasons: seq<string>)
    returns (r: Option<Verdict>)
    requires rec.Valid()
    modifies rec
    ensures Wrote(rec, old(rec.log), JudgedLog(s, item, result), r.Some?)
    ensures r.Some? ==>
      GateFor(s, item, result).Some? && r.value == VerdictOn(digest, result, GateFor(s, item, result).value, reasons)
  {
    hide History, GateEntry, RunStatusText;
    ghost var before := rec.log;
    assert before + [] == before;
    if result.status == RunCompleted && item.hasGate {
      var judged := s.gate(item);
      if judged.None? { return None; }
      var gate := judged.value;
      var ok := rec.Record(GateEntry(item, gate.outcome));
      if !ok { return None; }
      r := Some(Verdict(Some(gate.outcome), reasons + gate.reasons, !EvidenceGates.Promotable(gate.outcome)));
    } else if result.status == RunCompleted {
      r := Some(Verdict(None, reasons + ["completed run has no acceptance Gate"], true));
    } else {
      r := Some(Verdict(None, reasons + ["run ended as " + RunStatusText(result.status)], true));
    }
  }

  function SelectedLog(s: Services, item: WorkItem, n: Negotiated): Option<seq<LogEntry>> {
    match RunSelected(s, item, n)
    case None => None
    case Some(run) => Some(RunLog(item, run))
  }

  /** The log of a run begins with its dispatch and its completion. */
  lemma RunLogParts(s: Services, item: WorkItem, n: Negotiated, digest: string)
    requires s.dispatch(item, n) == Some(digest) && RunSelected(s, item, n).Some?
    ensures s.invoke(item, digest).Some?
    ensures var run, result := RunSelected(s, item, n).value, s.invoke(item, digest).value;
      && run.Ran? && run.result == result && GateFor(s, item, result) == Some(run.gate)
      && RunLog(item, run)
         == [DispatchedEntry(item, digest)] + ([CompletedEntry(item, result)] + GateLog(item, run.gate))
  {
    hide DispatchedEntry, CompletedEntry, GateLog, GateFor;
  }

  /** Dispatches one selected item and invokes its adapter, recording both. */
  method InvokeItem(s: Services, rec: Recorder, item: WorkItem, n: Negotiated) returns (r: Option<(string, RunResult)>)
    requires rec.Valid()
    modifies rec
    ensures r.Some? ==>
      var (digest, result) := r.value;
      && s.dispatch(item, n) == Some(digest) && s.invoke(item, digest) == Some(result)
      && rec.Valid() && rec.log == old(rec.log) + [DispatchedEntry(item, digest)] + [CompletedEntry(item, result)]
    ensures r.None? ==> Wrote(rec, old(rec.log), SelectedLog(s, item, n), false)
  {
    hide History, DispatchedEntry, CompletedEntry, GateLog, GateFor, RunLog, RunSelected;
    ghost var before := rec.log;
    ghost var run := RunSelected(s, item, n);
    var dispatched := s.dispatch(item, n);
    if dispatched.None? {
      NotDispatched(s, item, n);
      return None;
    }
    var digest := dispatched.value;
    if run.Some? { RunLogParts(s, item, n, digest); }
    var first := DispatchedEntry(item, digest);
    var ok := rec.Record(first);
    if !ok {
      if run.Some? {
        ghost var second := CompletedEntry(item, run.value.result);
        CannotWrite(before, [first], [second] + GateLog(item, run.value.gate), rec.header, rec.platform);
      }
      return None;
    }
    var invoked := s.invoke(item, digest);
    if invoked.None? { return None; }
    var second := CompletedEntry(item, invoked.value);
    ok := rec.Record(second);
    if !ok {
      if run.Some? {
        AppendAssociates(before, [first], [second] + GateLog(item, run.value.gate));
        CannotWrite(before + [first], [second], GateLog(item, run.value.gate), rec.header, rec.platform);
      }
      return None;
    }
    r := Some((digest, invoked.value));
  }

  lemma NotDispatched(s: Services, item: WorkItem, n: Negotiated)
    requires s.dispatch(item, n).None?
    ensures RunSelected(s, item, n).None?
  {
  }

  lemma SelectedGate(s: Services, item: WorkItem, n: Negotiated, digest: string)
    requires s.dispatch(item, n) == Some(digest) && s.invoke(item, digest).Some?
    ensures RunSelected(s, item, n) ==
      var result := s.invoke(item, digest).value;
      match GateFor(s, item, result)
      case None => None
      case Some(gate) => Some(Ran(digest, result, gate))
  {
    hide GateFor;
  }

  /** Runs one selected item and judges the run. */
  method RunItem(s: Services, rec: Recorder, item: WorkItem, current: WorkTrace, n: Negotiated, ghost prep: Preparation)
    returns (r: Option<RanItem>)
    requires rec.Valid() && prep.Ready? && n == prep.negotiated && current == WorkTraceOf(item, prep, NotRun)
    modifies rec
    ensures Wrote(rec, old(rec.log), SelectedLog(s, item, n), r.Some?)
    ensures r.Some? ==>
      RunSelected(s, item, n).Some? && r.value == RanSummary(item, prep, RunSelected(s, item, n).value)
  {
    hide History, DispatchedEntry, CompletedEntry, GateLog, GateFor, RunReasons, RunSelected, RunLog;
    ghost var before := rec.log;
    var invoked := InvokeItem(s, rec, item, n);
    if invoked.None? { return None; }
    var (digest, result) := invoked.value;
    var verdict := JudgeRun(s, rec, item, digest, result, current.reasons);
    SelectedGate(s, item, n, digest);
    ghost var run := RunSelected(s, item, n);
    if run.Some? {
      RunLogParts(s, item, n, digest);
      ghost var first, second := [DispatchedEntry(item, digest)], [CompletedEntry(item, result)];
      AppendAssociates(before, first, second + GateLog(item, run.value.gate));
      AppendAssociates(before + first, second, GateLog(item, run.value.gate));
    }
    if verdict.None? { return None; }
    var v := verdict.value;
    var completion: Option<Completion> := None;
    if result.status == RunCompleted
       && (v.gateOutcome == Some(EvidenceGates.GatePassed)
           || v.gateOutcome == Some(EvidenceGates.GatePassedWithException))
       && item.integrates
    {
      completion := Some(Completion(Id(item), result.evidenceIds));
    }
    r := Some(RanItem(
      WorkTrace(current.workPackageId, current.authorization, current.explanation, current.manifestId,
                current.adapterId, SelectedToRun, Some(result.status), v.gateOutcome, v.reasons),
      v.failure, completion));
  }

  /** What the second pass has gathered after some items. */
  datatype SecondPass = SecondPass(
    traces: map<string, WorkTrace>, completions: seq<Completion>, anyFailure: bool, anyWaiting: bool)

  ghost predicate Progressed(
    s: Services, work: seq<WorkItem>, preps: seq<Preparation>, i: nat, decisions: map<string, Scheduler.Entry>,
    runs: seq<Execution>, f: SecondPass)
  {
    && i <= |work| == |preps| && |runs| == i
    && RunAll(s, work[..i], preps[..i], decisions) == Some(runs)
    && Traced(work, preps, runs + NoRuns(|work| - i), f.traces)
    && f.completions == Completions(work[..i], runs)
    && f.anyFailure == AnyFails(runs) && f.anyWaiting == AnyWaits(runs)
  }

  ghost predicate AnyFails(runs: seq<Execution>) {
    exists x :: x in runs && FailsRun(x)
  }

  ghost predicate AnyWaits(runs: seq<Execution>) {
    exists x :: x in runs && x.Waiting?
  }

  lemma FlagsGrow(runs: seq<Execution>, run: Execution)
    ensures AnyFails(runs + [run]) <==> AnyFails(runs) || FailsRun(run)
    ensures AnyWaits(runs + [run]) <==> AnyWaits(runs) || run.Waiting?
  {
    hide FailsRun;
    assert forall x :: x in runs + [run] <==> x in runs || x == run;
  }

  function AfterRun(f: SecondPass, item: WorkItem, prep: Preparation, run: Execution): SecondPass {
    SecondPass(
      f.traces[Id(item) := WorkTraceOf(item, prep, run)],
      f.completions + (if CompletionOf(item, run).Some? then [CompletionOf(item, run).value] else []),
      f.anyFailure || FailsRun(run), f.anyWaiting || run.Waiting?)
  }

  lemma IdsDiffer(work: seq<WorkItem>, i: nat, j: nat)
    requires NoDuplicates(Map(Package(), work)) && i < |work| && j < |work| && i != j
    ensures Id(work[i]) != Id(work[j])
  {
    hide Map;
    assert Package()(work[i]) == Id(work[i]) && Package()(work[j]) == Id(work[j]);
  }

  lemma OneRunSet(runs: seq<Execution>, n: nat, run: Execution) returns (now: seq<Execution>, later: seq<Execution>)
    requires |runs| < n
    ensures now == runs + NoRuns(n - |runs|) && later == runs + [run] + NoRuns(n - (|runs| + 1))
    ensures |now| == |later| == n && later[|runs|] == run
    ensures forall k :: 0 <= k < n && k != |runs| ==> later[k] == now[k]
  {
    now, later := runs + NoRuns(n - |runs|), runs + [run] + NoRuns(n - (|runs| + 1));
  }

  lemma TakeOneMore<T>(xs: seq<T>, i: nat)
    requires i < |xs|
    ensures xs[..i + 1] == xs[..i] + [xs[i]]
  {
  }

  lemma TracedAt(
      work: seq<WorkItem>, preps: seq<Preparation>, runs: seq<Execution>, traces: map<string, WorkTrace>, k: nat)
    requires |work| == |preps| && Traced(work, preps, runs, traces) && k < |work|
    ensures Id(work[k]) in traces && traces[Id(work[k])] == WorkTraceOf(work[k], preps[k], runs[k])
  {
    hide WorkTraceOf;
    assert work[k] in work;
  }

  lemma SameKeys<K, V>(m: map<K, V>, k: K, v: V)
    requires k in m
    ensures m[k := v].Keys == m.Keys
  {
  }

  lemma RetracedAt(
    work: seq<WorkItem>, preps: seq<Preparation>, now: seq<Execution>, later: seq<Execution>,
    traces: map<string, WorkTrace>, i: nat, k: nat)
    requires i < |work| == |preps| == |now| == |later| && k < |work| && NoDuplicates(Map(Package(), work))
    requires Traced(work, preps, now, traces) && (k != i ==> later[k] == now[k])
    ensures var traces' := traces[Id(work[i]) := WorkTraceOf(work[i], preps[i], later[i])];
      Id(work[k]) in traces' && traces'[Id(work[k])] == WorkTraceOf(work[k], preps[k], later[k])
  {
    hide WorkTraceOf, Map, NoDuplicates, Id, Traced;
    TracedAt(work, preps, now, traces, k);
    if k != i {
      IdsDiffer(work, k, i);
    }
  }

  /** Replacing the run of one item replaces its trace and no other. */
  lemma Retraced(
    work: seq<WorkItem>, preps: seq<Preparation>, now: seq<Execution>, later: seq<Execution>,
    traces: map<string, WorkTrace>, i: nat)
    requires i < |work| == |preps| == |now| == |later| && NoDuplicates(Map(Package(), work))
    requires Traced(work, preps, now, traces)
    requires forall k :: 0 <= k < |work| && k != i ==> later[k] == now[k]
    ensures Traced(work, preps, later, traces[Id(work[i]) := WorkTraceOf(work[i], preps[i], later[i])])
  {
    hide WorkTraceOf, Map, NoDuplicates;
    TracedAt(work, preps, now, traces, i);
    SameKeys(traces, Id(work[i]), WorkTraceOf(work[i], preps[i], later[i]));
    forall k | 0 <= k < |work| ensures
      var traces' := traces[Id(work[i]) := WorkTraceOf(work[i], preps[i], later[i])];
      traces'[Id(work[k])] == WorkTraceOf(work[k], preps[k], later[k])
    {
      RetracedAt(work, preps, now, later, traces, i, k);
    }
  }

  lemma RetracedStep(
    work: seq<WorkItem>, preps: seq<Preparation>, runs: seq<Execution>, traces: map<string, WorkTrace>, run: Execution)
    requires |work| == |preps| && |runs| < |work| && NoDuplicates(Map(Package(), work))
    requires Traced(work, preps, runs + NoRuns(|work| - |runs|), traces)
    ensures var i := |runs|;
      Traced(work, preps, runs + [run] + NoRuns(|work| - (i + 1)),
             traces[Id(work[i]) := WorkTraceOf(work[i], preps[i], run)])
  {
    hide WorkTraceOf, Map, NoDuplicates, NoRuns, Id, Traced;
    var now, later := OneRunSet(runs, |work|, run);
    Retraced(work, preps, now, later, traces, |runs|);
  }

  lemma OneMoreRun(
    s: Services, work: seq<WorkItem>, preps: seq<Preparation>, decisions: map<string, Scheduler.Entry>,
    runs: seq<Execution>, item: WorkItem, prep: Preparation, run: Execution)
    requires |work| == |preps| && RunAll(s, work, preps, decisions) == Some(runs)
    requires RunOne(s, item, prep, decisions) == Some(run)
    ensures RunAll(s, work + [item], preps + [prep], decisions) == Some(runs + [run])
    ensures Completions(work + [item], runs + [run])
         == Completions(work, runs) + (if CompletionOf(item, run).Some? then [CompletionOf(item, run).value] else [])
  {
    hide RunOne, AcceptedRun;
    var longer, preps', runs' := work + [item], preps + [prep], runs + [run];
    assert longer[..|work|] == work && preps'[..|work|] == preps && runs'[..|work|] == runs;
  }

  lemma ProgressStep(
    s: Services, work: seq<WorkItem>, preps: seq<Preparation>, i: nat, decisions: map<string, Scheduler.Entry>,
    runs: seq<Execution>, f: SecondPass, run: Execution)
    requires Progressed(s, work, preps, i, decisions, runs, f) && i < |work| && NoDuplicates(Map(Package(), work))
    requires RunOne(s, work[i], preps[i], decisions) == Some(run)
    ensures Progressed(s, work, preps, i + 1, decisions, runs + [run], AfterRun(f, work[i], preps[i], run))
  {
    hide RunOne, RunAll, Traced, Completions, WorkTraceOf, FailsRun, NoDuplicates, CompletionOf, AnyFails, AnyWaits,
      Map;
    TakeOneMore(work, i);
    TakeOneMore(preps, i);
    OneMoreRun(s, work[..i], preps[..i], decisions, runs, work[i], preps[i], run);
    RetracedStep(work, preps, runs, f.traces, run);
    FlagsGrow(runs, run);
  }

  lemma {:induction false} RunPrefix(
    s: Services, work: seq<WorkItem>, preps: seq<Preparation>, decisions: map<string, Scheduler.Entry>, i: nat)
    requires |work| == |preps| && i <= |work| && RunAll(s, work, preps, decisions).Some?
    ensures RunAll(s, work[..i], preps[..i], decisions) == Some(RunAll(s, work, preps, decisions).value[..i])
  {
    hide RunOne;
    if i < |work| {
      var n := |work| - 1;
      RunPrefix(s, work[..n], preps[..n], decisions, i);
      assert work[..n][..i] == work[..i] && preps[..n][..i] == preps[..i];
      var front := RunAll(s, work[..n], preps[..n], decisions).value;
      assert RunAll(s, work, preps, decisions).value[..i] == front[..i];
    } else {
      assert work[..i] == work && preps[..i] == preps;
      assert RunAll(s, work, preps, decisions).value[..i] == RunAll(s, work, preps, decisions).value;
    }
  }

  lemma RunLogsSplit(work: seq<WorkItem>, runs: seq<Execution>, i: nat)
    requires |work| == |runs| && i < |work|
    ensures var all := RunLogs(work, runs);
      Flatten(all) == Flatten(RunLogs(work[..i], runs[..i])) + RunLog(work[i], runs[i]) + Flatten(all[i + 1..])
  {
    hide RunLog;
    FlattenAround(RunLogs(work, runs), i);
    assert RunLogs(work, runs)[..i] == RunLogs(work[..i], runs[..i]);
  }

  lemma OneMoreRunLog(work: seq<WorkItem>, runs: seq<Execution>, item: WorkItem, run: Execution)
    requires |work| == |runs|
    ensures RunsLog(work + [item], runs + [run]) == RunsLog(work, runs) + RunLog(item, run)
  {
    hide RunLog;
    RunLogsSplit(work + [item], runs + [run], |work|);
    assert (work + [item])[..|work|] == work && (runs + [run])[..|work|] == runs;
  }

  lemma ProgressFacts(
    s: Services, work: seq<WorkItem>, preps: seq<Preparation>, i: nat, decisions: map<string, Scheduler.Entry>,
    runs: seq<Execution>, f: SecondPass)
    requires Progressed(s, work, preps, i, decisions, runs, f)
    ensures |work| == |preps| && RunAll(s, work[..i], preps[..i], decisions) == Some(runs)
    ensures i < |work| ==>
      Id(work[i]) in f.traces && f.traces[Id(work[i])] == WorkTraceOf(work[i], preps[i], NotRun)
  {
    hide RunAll, Completions, WorkTraceOf;
    if i < |work| {
      assert work[i] in work;
      assert (runs + NoRuns(|work| - i))[i] == NotRun;
    }
  }

  lemma NothingRunYet(
    s: Services, work: seq<WorkItem>, preps: seq<Preparation>, decisions: map<string, Scheduler.Entry>,
    traces: map<string, WorkTrace>)
    requires |work| == |preps| && Traced(work, preps, NoRuns(|work|), traces)
    ensures Progressed(s, work, preps, 0, decisions, [], SecondPass(traces, [], false, false))
  {
    hide Traced;
    assert [] + NoRuns(|work|) == NoRuns(|work|);
  }

  function RunsLog(work: seq<WorkItem>, runs: seq<Execution>): seq<LogEntry>
    requires |work| == |runs|
  {
    Flatten(RunLogs(work, runs))
  }

  /** What the second pass writes, if nothing raises. */
  function SecondPassLog(
      s: Services, work: seq<WorkItem>, preps: seq<Preparation>, decisions: map<string, Scheduler.Entry>):
    Option<seq<LogEntry>>
    requires |work| == |preps|
  {
    match RunAll(s, work, preps, decisions)
    case None => None
    case Some(runs) => Some(RunsLog(work, runs))
  }

  /** The state of the second pass after `i` items, and what it has written. */
  ghost predicate PassedSecond(
    s: Services, work: seq<WorkItem>, preps: seq<Preparation>, i: nat, decisions: map<string, Scheduler.Entry>,
    runs: seq<Execution>, f: SecondPass, written: seq<LogEntry>)
  {
    && i <= |work| && |runs| == i && Progressed(s, work, preps, i, decisions, runs, f)
    && written == RunsLog(work[..i], runs)
  }

  lemma PassedSecondStep(
    s: Services, work: seq<WorkItem>, preps: seq<Preparation>, i: nat, decisions: map<string, Scheduler.Entry>,
    runs: seq<Execution>, f: SecondPass, written: seq<LogEntry>, run: Execution)
    requires PassedSecond(s, work, preps, i, decisions, runs, f, written) && NoDuplicates(Map(Package(), work))
    requires i < |work| == |preps| && RunOne(s, work[i], preps[i], decisions) == Some(run)
    ensures PassedSecond(s, work, preps, i + 1, decisions, runs + [run], AfterRun(f, work[i], preps[i], run),
                         written + RunLog(work[i], run))
  {
    hide Progressed, RunOne, RunLog, NoDuplicates, Map, AfterRun;
    ProgressStep(s, work, preps, i, decisions, runs, f, run);
    TakeOneMore(work, i);
    OneMoreRunLog(work[..i], runs, work[i], run);
  }

  lemma PassedSecondFacts(
    s: Services, work: seq<WorkItem>, preps: seq<Preparation>, i: nat, decisions: map<string, Scheduler.Entry>,
    runs: seq<Execution>, f: SecondPass, written: seq<LogEntry>)
    requires PassedSecond(s, work, preps, i, decisions, runs, f, written) && i < |work|
    ensures |work| == |preps| && Id(work[i]) in f.traces
    ensures f.traces[Id(work[i])] == WorkTraceOf(work[i], preps[i], NotRun)
  {
    hide Progressed, RunsLog, WorkTraceOf;
    ProgressFacts(s, work, preps, i, decisions, runs, f);
  }

  /** If one run is refused, no run of the scenario gets through its second pass. */
  lemma SecondPassRefused(
    s: Services, before: seq<LogEntry>, work: seq<WorkItem>, preps: seq<Preparation>, i: nat,
    decisions: map<string, Scheduler.Entry>, runs: seq<Execution>, f: SecondPass, written: seq<LogEntry>,
    h: Header, p: EventLog.Platform)
    requires PassedSecond(s, work, preps, i, decisions, runs, f, written) && i < |work| == |preps|
    requires var one := OneRunLog(s, work[i], preps[i], decisions);
      one.Some? ==> History(before + written + one.value, h, p).None?
    ensures var all := SecondPassLog(s, work, preps, decisions);
      all.Some? ==> History(before + all.value, h, p).None?
  {
    hide History, RunOne, RunLog, Flatten, Traced, Completions, AnyFails, AnyWaits;
    if RunAll(s, work, preps, decisions).Some? {
      var all := RunAll(s, work, preps, decisions).value;
      EachRun(s, work, preps, decisions);
      RunPrefix(s, work, preps, decisions, i);
      RunLogsSplit(work, all, i);
      var done := before + written + RunLog(work[i], all[i]);
      var rest := Flatten(RunLogs(work, all)[i + 1..]);
      assert before + RunsLog(work, all) == done + rest;
      RefusedStaysRefused(done, rest, h, p);
    }
  }

  function OneRunLog(s: Services, item: WorkItem, prep: Preparation, decisions: map<string, Scheduler.Entry>):
    Option<seq<LogEntry>>
  {
    match RunOne(s, item, prep, decisions)
    case None => None
    case Some(run) => Some(RunLog(item, run))
  }

  /** One item of the second pass: skipped when it was not prepared, left waiting when deferred, else run. */
  method RunStep(
    s: Services, rec: Recorder, item: WorkItem, prepared: map<string, Negotiated>,
    decisions: map<string, Scheduler.Entry>, f: SecondPass, ghost prep: Preparation)
    returns (r: Option<SecondPass>)
    requires rec.Valid() && Id(item) in f.traces && f.traces[Id(item)] == WorkTraceOf(item, prep, NotRun)
    requires prep.Ready? <==> Id(item) in prepared
    requires prep.Ready? ==> prepared[Id(item)] == prep.negotiated
    modifies rec
    ensures Wrote(rec, old(rec.log), OneRunLog(s, item, prep, decisions), r.Some?)
    ensures r.Some? ==>
      var run := RunOne(s, item, prep, decisions);
      run.Some? && r.value == AfterRun(f, item, prep, run.value)
  {
    hide History, RunSelected, WorkTraceOf, AcceptedRun, FailsRun;
    ghost var before := rec.log;
    assert before + [] == before;
    if Id(item) !in prepared {
      AfterNoRun(f, item, prep, NotRun);
      return Some(f);
    }
    if Id(item) !in decisions { return None; }
    var entry := decisions[Id(item)];
    var current := f.traces[Id(item)];
    if entry.decision == Scheduler.Deferred {
      WaitingTrace(item, prep, entry.reasons);
      AfterNoRun(f, item, prep, Waiting(entry.reasons));
      return Some(SecondPass(
        f.traces[Id(item) := current.(decision := DeferredToWait, runStatus := None, gateOutcome := None,
                                      reasons := entry.reasons)],
        f.completions, f.anyFailure, true));
    }
    var x := RunItem(s, rec, item, current, prepared[Id(item)], prep);
    if x.None? { return None; }
    SelectedRan(s, item, prep.negotiated);
    r := Some(SecondPass(
      f.traces[Id(item) := x.value.trace],
      f.completions + (if x.value.completion.Some? then [x.value.completion.value] else []),
      f.anyFailure || x.value.failure, f.anyWaiting));
  }

  ghost predicate PassedAll(
    s: Services, work: seq<WorkItem>, preps: seq<Preparation>, decisions: map<string, Scheduler.Entry>, f: SecondPass)
  {
    && |work| == |preps| && RunAll(s, work, preps, decisions).Some?
    && Progressed(s, work, preps, |work|, decisions, RunAll(s, work, preps, decisions).value, f)
  }

  /** Runs what the plan selected, in order; the first exception or refused record ends it. */
  method RunWork(
    s: Services, rec: Recorder, work: seq<WorkItem>, prepared: map<string, Negotiated>,
    decisions: map<string, Scheduler.Entry>, traces: map<string, WorkTrace>, ghost preps: seq<Preparation>)
    returns (r: Option<SecondPass>)
    requires rec.Valid() && |work| == |preps| && NoDuplicates(Map(Package(), work))
    requires Kept(work, preps, prepared) && Traced(work, preps, NoRuns(|work|), traces)
    modifies rec
    ensures Wrote(rec, old(rec.log), SecondPassLog(s, work, preps, decisions), r.Some?)
    ensures r.Some? ==> PassedAll(s, work, preps, decisions, r.value)
  {
    hide *;
    ghost var before, runs, written := rec.log, [], [];
    var f := SecondPass(traces, [], false, false);
    SecondPassEmpty(s, work, preps, decisions, traces);
    assert before + [] == before;
    for i := 0 to |work|
      invariant PassedSecond(s, work, preps, i, decisions, runs, f, written)
      invariant rec.Valid() && rec.log == before + written
    {
      PassedSecondFacts(s, work, preps, i, decisions, runs, f, written);
      KeptFacts(work, preps, prepared, i);
      var next := RunStep(s, rec, work[i], prepared, decisions, f, preps[i]);
      WroteMeans(rec, before + written, OneRunLog(s, work[i], preps[i], decisions), next.Some?);
      if next.None? {
        SecondPassRefused(s, before, work, preps, i, decisions, runs, f, written, rec.header, rec.platform);
        NotWritten(rec, before, SecondPassLog(s, work, preps, decisions));
        return None;
      }
      ghost var run := RunOne(s, work[i], preps[i], decisions).value;
      OneRunLogIs(s, work[i], preps[i], decisions);
      PassedSecondStep(s, work, preps, i, decisions, runs, f, written, run);
      AppendAssociates(before, written, RunLog(work[i], run));
      f := next.value;
      runs, written := runs + [run], written + RunLog(work[i], run);
    }
    AllPassed(s, work, preps, decisions, runs, f, written);
    AllWritten(rec, before, written);
    r := Some(f);
  }

  lemma WroteMeans(rec: Recorder, before: seq<LogEntry>, more: Option<seq<LogEntry>>, ok: bool)
    requires Wrote(rec, before, more, ok)
    ensures ok ==> more.Some? && rec.Valid() && rec.log == before + more.value
    ensures !ok && more.Some? ==> History(before + more.value, rec.header, rec.platform).None?
  {
    hide History;
  }

  lemma NotWritten(rec: Recorder, before: seq<LogEntry>, more: Option<seq<LogEntry>>)
    requires more.Some? ==> History(before + more.value, rec.header, rec.platform).None?
    ensures Wrote(rec, before, more, false)
  {
    hide History;
  }

  lemma AllWritten(rec: Recorder, before: seq<LogEntry>, written: seq<LogEntry>)
    requires rec.Valid() && rec.log == before + written
    ensures Wrote(rec, before, Some(written), true)
  {
    hide History;
  }

  lemma KeptFacts(work: seq<WorkItem>, preps: seq<Preparation>, prepared: map<string, Negotiated>, i: nat)
    requires |work| == |preps| && Kept(work, preps, prepared) && i < |work| && NoDuplicates(Map(Package(), work))
    ensures if preps[i].Ready? then Id(work[i]) in prepared && prepared[Id(work[i])] == preps[i].negotiated
      else Id(work[i]) !in prepared
  {
  }

  lemma OneRunLogIs(s: Services, item: WorkItem, prep: Preparation, decisions: map<string, Scheduler.Entry>)
    requires RunOne(s, item, prep, decisions).Some?
    ensures OneRunLog(s, item, prep, decisions) == Some(RunLog(item, RunOne(s, item, prep, decisions).value))
  {
    hide RunOne, RunLog;
  }

  lemma AllPassed(
    s: Services, work: seq<WorkItem>, preps: seq<Preparation>, decisions: map<string, Scheduler.Entry>,
    runs: seq<Execution>, f: SecondPass, written: seq<LogEntry>)
    requires PassedSecond(s, work, preps, |work|, decisions, runs, f, written)
    ensures PassedAll(s, work, preps, decisions, f)
    ensures SecondPassLog(s, work, preps, decisions) == Some(written)
  {
    hide RunAll, Traced, Completions, AnyFails, AnyWaits, RunsLog;
    assert work[..|work|] == work && preps[..|work|] == preps;
  }

  lemma SecondPassEmpty(
    s: Services, work: seq<WorkItem>, preps: seq<Preparation>, decisions: map<string, Scheduler.Entry>,
    traces: map<string, WorkTrace>)
    requires |work| == |preps| && Traced(work, preps, NoRuns(|work|), traces)
    ensures PassedSecond(s, work, preps, 0, decisions, [], SecondPass(traces, [], false, false), [])
  {
    hide Traced;
    NothingRunYet(s, work, preps, decisions, traces);
    assert work[..0] == [];
  }

  lemma WaitingTrace(item: WorkItem, prep: Preparation, reasons: seq<string>)
    requires prep.Ready?
    ensures WorkTraceOf(item, prep, Waiting(reasons))
         == WorkTraceOf(item, prep, NotRun).(
              decision := DeferredToWait, runStatus := None, gateOutcome := None, reasons := reasons)
    ensures !FailsRun(Waiting(reasons)) && CompletionOf(item, Waiting(reasons)).None?
  {
  }

  lemma SelectedRan(s: Services, item: WorkItem, n: Negotiated)
    requires RunSelected(s, item, n).Some?
    ensures RunSelected(s, item, n).value.Ran?
  {
  }

  lemma AfterNoRun(f: SecondPass, item: WorkItem, prep: Preparation, run: Execution)
    requires !run.Ran?
    ensures AfterRun(f, item, prep, run)
         == SecondPass(f.traces[Id(item) := WorkTraceOf(item, prep, run)], f.completions, f.anyFailure,
                       f.anyWaiting || run.Waiting?)
    ensures run.NotRun? && Id(item) in f.traces && f.traces[Id(item)] == WorkTraceOf(item, prep, NotRun) ==>
      AfterRun(f, item, prep, run) == f
  {
    hide WorkTraceOf;
  }

  // ---------------------------------------------------------------- integration and the whole run

  /** The batch that was evaluated and the status of the integration. */
  datatype BatchOutcome = BatchOutcome(batchId: Option<string>, status: Option<IntegrationStatus>)

  function OutcomeOf(request: Option<IntegrationRequest>, i: Integration): BatchOutcome {
    BatchOutcome(if i.Judged? && request.Some? then Some(BatchLabel(request.value)) else None, StatusIn(i))
  }

  function IntegratedLog(
      s: Services, request: Option<IntegrationRequest>, completions: seq<Completion>): Option<seq<LogEntry>> {
    match Integrate(s, request, completions)
    case None => None
    case Some(i) => Some(IntegrationLog(request, completions, i))
  }

  /** Integrates the completions when exactly the requested members are ready, and records the outcome. */
  method IntegrateWork(s: Services, rec: Recorder, request: Option<IntegrationRequest>, completions: seq<Completion>)
    returns (r: Option<BatchOutcome>)
    requires rec.Valid()
    modifies rec
    ensures Wrote(rec, old(rec.log), IntegratedLog(s, request, completions), r.Some?)
    ensures r.Some? ==>
      && Integrate(s, request, completions).Some?
      && r.value == OutcomeOf(request, Integrate(s, request, completions).value)
  {
    hide History, SortedSet, Strings;
    ghost var before := rec.log;
    assert before + [] == before;
    if request.None? {
      return Some(BatchOutcome(None, None));
    }
    var q := request.value;
    var actual := set c | c in completions :: c.workPackageId;
    if q.members != actual {
      var ok := rec.Record(
        LogEntry("integration.blocked", "integration-batch", BatchLabel(q),
                 map["expectedMembers" := Strings(SortedSet(q.members)),
                     "readyMembers" := Strings(SortedSet(actual))]));
      if !ok { return None; }
      return Some(BatchOutcome(None, Some(IntegrationBlocked)));
    }
    if completions == [] || q.givenBatchId.None? { return None; }
    var evaluated := s.integrate(q, completions);
    if evaluated.None? { return None; }
    var status := evaluated.value;
    var ok := rec.Record(
      LogEntry("integration.evaluated", "integration-batch", BatchLabel(q), map["status" := JStr(BatchText(status))]));
    if !ok { return None; }
    r := Some(BatchOutcome(Some(BatchLabel(q)), StatusIn(Judged(status))));
  }

  /** The log of a run up to one of its stages: started, prepared, planned, run, integrated, completed. */
  function LogUpTo(sc: Scenario, c: Course, stage: nat): seq<LogEntry>
    requires |c.preps| == |sc.work| && |c.runs| == |sc.work|
  {
    if stage == 0 then [Started(sc)]
    else if stage == 1 then LogUpTo(sc, c, 0) + Flatten(PrepareLogs(sc.work, c.preps))
    else if stage == 2 then LogUpTo(sc, c, 1) + PlanLog(sc, c.planning)
    else if stage == 3 then LogUpTo(sc, c, 2) + Flatten(RunLogs(sc.work, c.runs))
    else if stage == 4 then
      LogUpTo(sc, c, 3) + IntegrationLog(sc.integration, Completions(sc.work, c.runs), c.integration)
    else LogUpTo(sc, c, 4) + [LastEntry(sc, StatusOf(c.preps, c.runs, c.integration))]
  }

  lemma Stages(sc: Scenario, c: Course)
    requires |c.preps| == |sc.work| && |c.runs| == |sc.work|
    ensures LogUpTo(sc, c, 0) == [Started(sc)]
    ensures LogUpTo(sc, c, 1) == LogUpTo(sc, c, 0) + Flatten(PrepareLogs(sc.work, c.preps))
    ensures LogUpTo(sc, c, 2) == LogUpTo(sc, c, 1) + PlanLog(sc, c.planning)
    ensures LogUpTo(sc, c, 3) == LogUpTo(sc, c, 2) + Flatten(RunLogs(sc.work, c.runs))
    ensures LogUpTo(sc, c, 4)
         == LogUpTo(sc, c, 3) + IntegrationLog(sc.integration, Completions(sc.work, c.runs), c.integration)
    ensures LogUpTo(sc, c, 5) == LogUpTo(sc, c, 4) + [LastEntry(sc, StatusOf(c.preps, c.runs, c.integration))]
  {
    hide Flatten, PrepareLogs, RunLogs, Completions, StatusOf, IntegrationLog, LastEntry, PlanLog, Started;
  }

  lemma LogIsLastStage(sc: Scenario, c: Course)
    requires |c.preps| == |sc.work| && |c.runs| == |sc.work|
    ensures LogUpTo(sc, c, 5) == LogOf(sc, c)
  {
    hide Flatten, PrepareLogs, RunLogs, Completions, StatusOf, IntegrationLog, LastEntry, PlanLog, Started, LogUpTo;
    Stages(sc, c);
  }

  lemma StagesGrow(sc: Scenario, c: Course, stage: nat)
    requires |c.preps| == |sc.work| && |c.runs| == |sc.work|
    ensures LogUpTo(sc, c, stage) <= LogUpTo(sc, c, stage + 1)
  {
    hide Flatten, PrepareLogs, RunLogs, Completions, StatusOf, IntegrationLog, LastEntry, PlanLog, Started;
    if stage >= 5 {
      assert LogUpTo(sc, c, stage) == LogUpTo(sc, c, stage + 1);
    }
  }

  /** A run whose log was refused at some stage has no trace. */
  lemma {:induction false} StageRefused(s: Services, sc: Scenario, p: EventLog.Platform, c: Course, stage: nat)
    requires sc.activation != StayConversational && Pursue(s, sc, p) == Some(c) && stage <= 5
    requires History(LogUpTo(sc, c, stage), HeaderOf(sc), p).None?
    ensures Execute(s, sc, p).None?
    decreases 5 - stage
  {
    hide History, LogUpTo, LogOf, Pursue, TraceOf, ValidTrace;
    if stage == 5 {
      LogIsLastStage(sc, c);
    } else {
      StagesGrow(sc, c, stage);
      var here, next := LogUpTo(sc, c, stage), LogUpTo(sc, c, stage + 1);
      assert next == here + next[|here|..];
      RefusedStaysRefused(here, next[|here|..], HeaderOf(sc), p);
      StageRefused(s, sc, p, c, stage + 1);
    }
  }

  lemma NoTrace(s: Services, sc: Scenario, p: EventLog.Platform, stage: nat)
    requires sc.activation != StayConversational && stage <= 5
    requires Pursue(s, sc, p).Some? ==> History(LogUpTo(sc, Pursue(s, sc, p).value, stage), HeaderOf(sc), p).None?
    ensures Execute(s, sc, p).None?
  {
    hide History, LogUpTo, LogOf, Pursue, TraceOf, ValidTrace;
    if Pursue(s, sc, p).Some? {
      StageRefused(s, sc, p, Pursue(s, sc, p).value, stage);
    }
  }

  function PlannedLog(sc: Scenario, candidates: seq<Scheduler.Candidate>, p: EventLog.Platform): Option<seq<LogEntry>> {
    match PlanWork(sc, candidates, p)
    case None => None
    case Some(planning) => Some(PlanLog(sc, planning))
  }

  /** Schedules the prepared candidates, if there are any, and records the plan. */
  method PlanPrepared(rec: Recorder, sc: Scenario, candidates: seq<Scheduler.Candidate>) returns (r: Option<Planning>)
    requires rec.Valid()
    modifies rec
    ensures Wrote(rec, old(rec.log), PlannedLog(sc, candidates, rec.platform), r.Some?)
    ensures r.Some? ==> r == PlanWork(sc, candidates, rec.platform)
  {
    hide History, PlannedEntry, Scheduler.Plan;
    ghost var before := rec.log;
    assert before + [] == before;
    if candidates == [] {
      return Some(NothingToPlan);
    }
    var now := rec.platform.time(sc.now);
    if now.None? { return None; }
    var planned := SchedulerEngine.Schedule(
      candidates, sc.reservations, sc.policy, sc.completedDependencies, sc.currentRevisions, sc.stateRevision,
      now.value);
    if planned.Failure? { return None; }
    var ok := rec.Record(PlannedEntry(sc.projectId, planned.value));
    if !ok { return None; }
    r := Some(Planned(planned.value));
  }

  lemma FinalTraces(work: seq<WorkItem>, preps: seq<Preparation>, runs: seq<Execution>, traces: map<string, WorkTrace>)
    requires |work| == |preps| == |runs| && Traced(work, preps, runs, traces)
    ensures forall x :: x in work ==> Id(x) in traces
    ensures seq(|work|, i requires 0 <= i < |work| => traces[Id(work[i])]) == WorkTraces(work, preps, runs)
  {
    hide WorkTraceOf;
    forall i | 0 <= i < |work| ensures Id(work[i]) in traces {
      assert work[i] in work;
    }
  }

  /** The traces of the items, in the order of the work. */
  method TracesInOrder(
      work: seq<WorkItem>, traces: map<string, WorkTrace>, ghost preps: seq<Preparation>, ghost runs: seq<Execution>)
    returns (r: seq<WorkTrace>)
    requires |work| == |preps| == |runs| && Traced(work, preps, runs, traces)
    ensures r == WorkTraces(work, preps, runs)
  {
    hide WorkTraceOf, Traced;
    FinalTraces(work, preps, runs, traces);
    r := seq(|work|, i requires 0 <= i < |work| => traces[Id(work[i])]);
  }

  /** The status the flags of the two passes and the integration add up to. */
  function StatusFrom(f: FirstPass, g: SecondPass, i: BatchOutcome): TraceStatus {
    if f.hardBlock then BlockedStatus
    else if f.decisionRequired then DecisionRequired
    else if g.anyFailure || (i.status.Some? && i.status != Some(IntegrationPassed)) then FailedStatus
    else if g.anyWaiting then WaitingStatus
    else Completed
  }

  lemma FlagsGiveStatus(
    s: Services, sc: Scenario, p: EventLog.Platform, c: Course, f: FirstPass, g: SecondPass, i: BatchOutcome)
    requires Pursue(s, sc, p) == Some(c)
    requires Gathered(s, sc.work, c.preps, f)
    requires Progressed(s, sc.work, c.preps, |sc.work|, Decisions(c.planning), c.runs, g)
    requires i == OutcomeOf(sc.integration, c.integration)
    ensures StatusFrom(f, g, i) == StatusOf(c.preps, c.runs, c.integration)
    ensures Traced(sc.work, c.preps, c.runs, g.traces)
  {
    hide Pursue, PrepareAll, RunAll, HardBlock, NeedsDecision, FailsRun, Completions, ReadyCandidates, Traced, Kept,
      NoDuplicates;
    assert c.runs + NoRuns(0) == c.runs;
  }

  /** Everything up to the final record: the status, the traces and what was planned and integrated. */
  datatype Performed = Performed(first: FirstPass, planning: Planning, second: SecondPass, batch: BatchOutcome)

  ghost predicate Performs(s: Services, sc: Scenario, p: EventLog.Platform, x: Performed, c: Course) {
    && Pursue(s, sc, p) == Some(c)
    && Gathered(s, sc.work, c.preps, x.first)
    && x.planning == c.planning
    && Progressed(s, sc.work, c.preps, |sc.work|, Decisions(c.planning), c.runs, x.second)
    && x.batch == OutcomeOf(sc.integration, c.integration)
  }

  /** What the second pass needs of the first. */
  lemma GatheredParts(s: Services, work: seq<WorkItem>, preps: seq<Preparation>, f: FirstPass)
    requires Gathered(s, work, preps, f)
    ensures PrepareAll(s, work) == Some(preps) && NoDuplicates(Map(Package(), work)) && |preps| == |work|
    ensures Traced(work, preps, NoRuns(|work|), f.traces) && Kept(work, preps, f.prepared)
    ensures f.candidates == ReadyCandidates(work, preps)
  {
    hide PrepareAll, NoDuplicates, Map, Kept, ReadyCandidates;
  }

  lemma PassedParts(
    s: Services, work: seq<WorkItem>, preps: seq<Preparation>, decisions: map<string, Scheduler.Entry>, f: SecondPass)
    requires PassedAll(s, work, preps, decisions, f)
    ensures |work| == |preps| && RunAll(s, work, preps, decisions).Some?
    ensures |RunAll(s, work, preps, decisions).value| == |work|
    ensures f.completions == Completions(work, RunAll(s, work, preps, decisions).value)
  {
    hide RunAll, Traced, AnyFails, AnyWaits, Completions;
    assert work[..|work|] == work;
  }

  lemma Together(s: Services, sc: Scenario, p: EventLog.Platform, c: Course, x: Performed)
    requires Pursue(s, sc, p) == Some(c) && Gathered(s, sc.work, c.preps, x.first) && x.planning == c.planning
    requires PassedAll(s, sc.work, c.preps, Decisions(c.planning), x.second)
    requires RunAll(s, sc.work, c.preps, Decisions(c.planning)) == Some(c.runs)
    requires x.batch == OutcomeOf(sc.integration, c.integration)
    ensures Performs(s, sc, p, x, c)
  {
    hide Pursue, Gathered, Progressed, RunAll, OutcomeOf, Decisions;
  }

  /** The run of a managed scenario up to its last record. */
  method Perform(s: Services, sc: Scenario, rec: Recorder) returns (r: Option<Performed>, ghost c: Course)
    requires sc.activation != StayConversational
    requires rec.Valid() && rec.log == [] && rec.header == HeaderOf(sc)
    modifies rec
    ensures r.None? ==> Execute(s, sc, rec.platform).None?
    ensures r.Some? ==> Performs(s, sc, rec.platform, r.value, c) && rec.Valid() && rec.log == LogUpTo(sc, c, 4)
  {
    hide History, Execute, Pursue, PrepareAll, PlanWork, RunAll, Integrate, PrepareLogs, RunLogs, Flatten, PlanLog,
      IntegrationLog, Started, NoDuplicates, Map, ReadyCandidates, Completions, Traced, Kept, OutcomeOf, LogUpTo,
      Decisions, HeaderOf, PlannedEntry, Gathered, PassedAll, Performs;
    ghost var p := rec.platform;
    ghost var course := Pursue(s, sc, p);
    c := if course.Some? then course.value else Course([], NothingToPlan, [], NotRequested);
    CourseSteps(s, sc, p, c);
    if course.Some? {
      Stages(sc, c);
    }
    if sc.work == [] {
      NoTrace(s, sc, p, 0);
      return None, c;
    }
    var ok := rec.Record(Started(sc));
    assert [] + [Started(sc)] == [Started(sc)];
    if !ok {
      NoTrace(s, sc, p, 0);
      return None, c;
    }
    var first := PrepareWork(s, rec, sc.work);
    if first.None? {
      NoTrace(s, sc, p, 1);
      return None, c;
    }
    ghost var preps := PrepareAll(s, sc.work).value;
    GatheredParts(s, sc.work, preps, first.value);
    var planning := PlanPrepared(rec, sc, first.value.candidates);
    if planning.None? {
      NoTrace(s, sc, p, 2);
      return None, c;
    }
    var decisions := Decisions(planning.value);
    var second := RunWork(s, rec, sc.work, first.value.prepared, decisions, first.value.traces, preps);
    if second.None? {
      NoTrace(s, sc, p, 3);
      return None, c;
    }
    ghost var runs := RunAll(s, sc.work, preps, decisions).value;
    PassedParts(s, sc.work, preps, decisions, second.value);
    var batch := IntegrateWork(s, rec, sc.integration, second.value.completions);
    if batch.None? {
      NoTrace(s, sc, p, 4);
      return None, c;
    }
    ghost var integration := Integrate(s, sc.integration, second.value.completions).value;
    CourseSteps(s, sc, p, Course(preps, planning.value, runs, integration));
    Stages(sc, c);
    r := Some(Performed(first.value, planning.value, second.value, batch.value));
    Together(s, sc, p, c, r.value);
  }

  /** The last record, the trace and its self-check. */
  method Conclude(s: Services, sc: Scenario, rec: Recorder, x: Performed, ghost c: Course) returns (r: Option<Trace>)
    requires ToManage(sc) && rec.header == HeaderOf(sc)
    requires Performs(s, sc, rec.platform, x, c) && rec.Valid() && rec.log == LogUpTo(sc, c, 4)
    modifies rec
    ensures r == Execute(s, sc, rec.platform)
  {
    hide Performs, ToManage, History, Execute, LogOf, LogUpTo, StatusFrom, TraceOf, ValidTrace, LastEntry, WorkTraces,
      Traced;
    var status := StatusFrom(x.first, x.second, x.batch);
    LastRecord(s, sc, rec.platform, x, c);
    ExecuteIs(s, sc, rec.platform, c);
    var ok := rec.Record(LastEntry(sc, status));
    if !ok { return None; }
    var work := TracesInOrder(sc.work, x.second.traces, c.preps, c.runs);
    var trace := Trace(
      sc.scenarioId, sc.projectId, status, sc.activation, sc.routeId, sc.stage, sc.modeIds, sc.stateRevision, work,
      if x.planning.Planned? then Some(x.planning.plan) else None,
      x.batch.batchId, x.batch.status, rec.histories);
    TraceIs(s, sc, rec.platform, x, c, trace);
    if !ValidTrace(trace, rec.platform) { return None; }
    r := Some(trace);
  }

  /** What a performed run has come to: its course, the status its flags give, and its whole log. */
  lemma LastRecord(s: Services, sc: Scenario, p: EventLog.Platform, x: Performed, c: Course)
    requires Performs(s, sc, p, x, c)
    ensures Pursue(s, sc, p) == Some(c)
    ensures Traced(sc.work, c.preps, c.runs, x.second.traces)
    ensures LogOf(sc, c) == LogUpTo(sc, c, 4) + [LastEntry(sc, StatusFrom(x.first, x.second, x.batch))]
  {
    hide Pursue, LogOf, LogUpTo, StatusOf, StatusFrom, Gathered, Progressed, LastEntry, Traced;
    FlagsGiveStatus(s, sc, p, c, x.first, x.second, x.batch);
    Stages(sc, c);
    LogIsLastStage(sc, c);
  }

  lemma ExecuteIs(s: Services, sc: Scenario, p: EventLog.Platform, c: Course)
    requires ToManage(sc) && Pursue(s, sc, p) == Some(c)
    ensures Execute(s, sc, p) ==
      match History(LogOf(sc, c), HeaderOf(sc), p)
      case None => None
      case Some(events) =>
        if ValidTrace(TraceOf(sc, c, events), p) then Some(TraceOf(sc, c, events)) else None
  {
    hide Pursue, History, LogOf, TraceOf, ValidTrace, HeaderOf;
  }

  lemma TraceIs(s: Services, sc: Scenario, p: EventLog.Platform, x: Performed, c: Course, t: Trace)
    requires Performs(s, sc, p, x, c)
    requires t.status == StatusFrom(x.first, x.second, x.batch) && t.work == WorkTraces(sc.work, c.preps, c.runs)
    requires t == Trace(
      sc.scenarioId, sc.projectId, t.status, sc.activation, sc.routeId, sc.stage, sc.modeIds, sc.stateRevision, t.work,
      if x.planning.Planned? then Some(x.planning.plan) else None, x.batch.batchId, x.batch.status, t.events)
    ensures t == TraceOf(sc, c, t.events)
  {
    hide Pursue, StatusOf, StatusFrom, WorkTraces, Gathered, Progressed, Traced;
    FlagsGiveStatus(s, sc, p, c, x.first, x.second, x.batch);
  }

  /** The trace of a scenario, as the specification gives it. */
  method ExecuteScenario(s: Services, sc: Scenario, p: EventLog.Platform) returns (r: Option<Trace>)
    ensures r == Execute(s, sc, p)
  {
    hide Execute, Pursue, Performs, LogUpTo, History, ValidTrace;
    StartsOrNot(s, sc, p);
    if !Named(sc) { return None; }
    if sc.activation == StayConversational {
      var trace := Conversational(sc);
      return if ValidTrace(trace, p) then Some(trace) else None;
    }
    if Blank(sc.routeId) { return None; }
    var rec := new Recorder(HeaderOf(sc), p);
    ghost var c: Course;
    var performed;
    performed, c := Perform(s, sc, rec);
    if performed.None? { return None; }
    r := Conclude(s, sc, rec, performed.value, c);
  }

  /** The scenarios that are refused or answered without a managed run. */
  lemma StartsOrNot(s: Services, sc: Scenario, p: EventLog.Platform)
    ensures !Named(sc) ==> Execute(s, sc, p).None?
    ensures Named(sc) && sc.activation == StayConversational ==>
      Execute(s, sc, p) == Some(Conversational(sc)) && ValidTrace(Conversational(sc), p)
    ensures Named(sc) && sc.activation != StayConversational && Blank(sc.routeId) ==> Execute(s, sc, p).None?
  {
    hide Pursue, History, LogOf, TraceOf;
    assert 'n' in "none" && !IsSpace('n');
  }
}
