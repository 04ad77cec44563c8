/**
 What becomes of a proposed batch of tool calls (crates/agent-core/src/lib.rs, the tool
 phase of `run_inner`): the record kept of every batch, and the bookkeeping of its waves.
 */
module Batches {
  import opened Wrappers
  import opened History
  import opened Steps
  import opened Schedule
  import opened Turn
  import opened ToolCalls

  // ----- Records

  /** A scheduled call: its position in the batch and the call. */
  datatype PendingCall = PendingCall(index: nat, call: ToolCall)

  type Entry = Scheduled<PendingCall>

  /** How a proposed batch ended. */
  datatype Verdict = AllDeferred | BackToModel | Paused(pausers: seq<Entry>) | RepeatedFailure | CutShort

  /**
   A proposed batch: its calls, the journal entries of those that were started, the entries
   scheduled for it, those that ran with their outcomes, and those that were answered, in
   order, with their results.
   */
  datatype BatchRecord = BatchRecord(calls: seq<ToolCall>, started: seq<Operation>, entries: seq<Entry>, ran: seq<Entry>,
                                     outcomes: seq<Outcome>, answered: seq<Entry>, results: seq<Message>, verdict: Verdict)

  /** Every call of the batch ran once and has exactly one result, but for the pausing ones of a pause. */
  ghost predicate Accounted(b: BatchRecord) {
    && (b.verdict.AllDeferred? || Answering(b.answered, b.results))
    && StartsAre(b.started, b.calls) && OutcomesAre(b.outcomes, b.ran)
    && match b.verdict
       case AllDeferred => b.started == [] && b.ran == [] && b.answered == [] && b.results == LimitMessages(b.calls)
       case BackToModel => AllScheduled(b) && multiset(b.answered) == multiset(b.entries) == multiset(b.ran)
       case Paused(pausers) => AllScheduled(b) && multiset(b.answered) + multiset(pausers) == multiset(b.entries)
                               && multiset(pausers) <= multiset(b.ran) <= multiset(b.entries) && LonePause(pausers)
       case RepeatedFailure => AllScheduled(b) && multiset(b.answered) == multiset(b.ran) <= multiset(b.entries)
       case CutShort => multiset(b.answered) == multiset(b.ran) <= multiset(b.entries)
  }

  /** The journal entries of the first calls. */
  ghost predicate StartsAre(started: seq<Operation>, calls: seq<ToolCall>) {
    |started| <= |calls| && forall i :: 0 <= i < |started| ==> started[i] == ToolCallStarted(calls[i].id, calls[i].name)
  }

  /** One outcome for each entry that ran, under its fingerprint. */
  ghost predicate OutcomesAre(outcomes: seq<Outcome>, ran: seq<Entry>) {
    |outcomes| == |ran| && forall i :: 0 <= i < |ran| ==> outcomes[i].fingerprint == Fingerprint(ran[i].value.call)
  }

  /** All calls of the batch were started and scheduled. */
  ghost predicate AllScheduled(b: BatchRecord) { |b.started| == |b.calls| && CallsAre(b.entries, b.calls) }

  /** The batches of a run, the latest outside. */
  datatype Ledger = NoBatch | Batches(earlier: Ledger, last: BatchRecord)

  ghost predicate AllAccounted(ledger: Ledger) {
    ledger.Batches? ==> Accounted(ledger.last) && AllAccounted(ledger.earlier)
  }

  function LedgerStarts(ledger: Ledger): seq<Operation> {
    if ledger.NoBatch? then [] else LedgerStarts(ledger.earlier) + ledger.last.started
  }

  function LedgerOutcomes(ledger: Ledger): seq<Outcome> {
    if ledger.NoBatch? then [] else LedgerOutcomes(ledger.earlier) + ledger.last.outcomes
  }

  /** One more batch is in the ledger. */
  ghost predicate Logged(before: Ledger, now: Ledger, calls: seq<ToolCall>) {
    now.Batches? && now.earlier == before && now.last.calls == calls
  }

  /** One more batch is in the ledger, under its schedule. */
  ghost predicate LoggedAs(before: Ledger, now: Ledger, calls: seq<ToolCall>, entries: seq<Entry>) {
    Logged(before, now, calls) && now.last.entries == entries
  }

  /** One more batch is in the ledger, and it was cut short. */
  ghost predicate LoggedCut(before: Ledger, now: Ledger, calls: seq<ToolCall>) {
    Logged(before, now, calls) && now.last.verdict.CutShort?
  }

  /**
   The ledger, what is known of the batch in hand (journal entries, entries that ran, their
   outcomes), and all outcomes of the run.
   */
  datatype Log = Log(ledger: Ledger, started: seq<Operation>, ran: seq<Entry>, outcomes: seq<Outcome>, total: seq<Outcome>)

  /** Every batch is accounted for, failures are counted, and journal, outcomes and ledger tell the same story. */
  ghost predicate LogOk(failures: map<string, nat>, log: Log, started: seq<Operation>) {
    && CountsFailures(failures, log.total) && AllAccounted(log.ledger)
    && started == LedgerStarts(log.ledger) + log.started
    && log.total == LedgerOutcomes(log.ledger) + log.outcomes && OutcomesAre(log.outcomes, log.ran)
  }

  const EMPTY_LOG := Log(NoBatch, [], [], [], [])

  lemma EmptyLogIsOk()
    ensures LogOk(map[], EMPTY_LOG, [])
  {
  }

  function WithStart(log: Log, op: Operation): Log { log.(started := log.started + [op]) }

  function WithOutcome(log: Log, e: Entry, o: Outcome): Log {
    log.(ran := log.ran + [e], outcomes := log.outcomes + [o], total := log.total + [o])
  }

  function WithBatch(log: Log, b: BatchRecord): Log { Log(Batches(log.ledger, b), [], [], [], log.total) }

  lemma LogStart(failures: map<string, nat>, log: Log, started: seq<Operation>, op: Operation)
    requires LogOk(failures, log, started)
    ensures LogOk(failures, WithStart(log, op), started + [op])
  {
  }

  lemma LogOutcome(failures: map<string, nat>, log: Log, started: seq<Operation>, e: Entry, o: Outcome)
    requires LogOk(failures, log, started) && o.fingerprint == Fingerprint(e.value.call)
    ensures LogOk(Recount(failures, o), WithOutcome(log, e, o), started)
  {
    RecountCounts(failures, log.total, o);
  }

  lemma LogBatch(failures: map<string, nat>, log: Log, started: seq<Operation>, b: BatchRecord)
    requires LogOk(failures, log, started) && Accounted(b)
    requires log.started == b.started && log.outcomes == b.outcomes
    ensures LogOk(failures, WithBatch(log, b), started)
  {
    assert started + [] == started && log.total + [] == log.total;
  }

  ghost predicate AllBelow(failures: map<string, nat>, limit: nat) {
    forall f :: f in failures ==> failures[f] < limit
  }

  /** Somebody pauses, and nobody else does when one of the pausing calls had claimed everything. */
  ghost predicate LonePause(pausers: seq<Entry>) {
    pausers != [] && ((exists p :: p in pausers && IsExclusive(p)) ==> |pausers| == 1)
  }

  ghost predicate CallsAre(entries: seq<Entry>, calls: seq<ToolCall>) {
    |entries| == |calls| && forall i :: 0 <= i < |calls| ==> entries[i].value == PendingCall(i, calls[i])
  }

  /** Each result carries the id of the entry it answers. */
  ghost predicate Answering(answered: seq<Entry>, results: seq<Message>) {
    |answered| == |results| && forall i :: 0 <= i < |results| ==> ResultId(results[i]) == Some(answered[i].value.call.id)
  }

  // ----- Waves

  /** A wave leaves the schedule, and nothing is lost. */
  ghost predicate SplitInto(waiting: seq<Entry>, wave: seq<Entry>, rest: seq<Entry>) {
    && wave == Ready(waiting, |waiting|) && (forall k :: 0 <= k < |waiting| ==> |waiting[k].claims| > 0)
    && multiset(waiting) == multiset(wave) + multiset(rest)
  }

  /** A wave takes something off the schedule and loses nothing. */
  lemma WaveSplits(waiting: seq<Entry>)
    requires waiting != [] && forall k :: 0 <= k < |waiting| ==> |waiting[k].claims| > 0
    ensures SplitInto(waiting, Ready(waiting, |waiting|), Blocked(waiting, |waiting|))
    ensures |Blocked(waiting, |waiting|)| < |waiting|
  {
    Partition(waiting, |waiting|);
    assert waiting[..|waiting|] == waiting;
    FirstIsReady(waiting, |waiting|);
  }

  /** A pausing call that claimed everything was alone in its wave. */
  lemma LoneInWave(waiting: seq<Entry>, wave: seq<Entry>, t: Tally)
    requires wave == Ready(waiting, |waiting|) && forall k :: 0 <= k < |waiting| ==> |waiting[k].claims| > 0
    requires t.pausers != [] && multiset(t.answered) + multiset(t.pausers) == multiset(wave)
    requires |t.answered| + |t.pausers| == |wave|
    ensures LonePause(t.pausers)
  {
    if p :| p in t.pausers && IsExclusive(p) {
      assert p in multiset(t.pausers);
      assert p in multiset(wave);
      var i :| 0 <= i < |wave| && wave[i] == p;
      ExclusiveRunsAlone(waiting, |waiting|, i);
    }
  }

  /** The answers so far: who was answered, with what, and who paused. */
  datatype Tally = Tally(answered: seq<Entry>, results: seq<Message>, pausers: seq<Entry>)

  /** The tally covers the entries, and the queue grew by its results. */
  ghost predicate Tallies(t: Tally, entries: seq<Entry>, before: seq<StepRequest>, now: seq<StepRequest>) {
    && multiset(t.answered) + multiset(t.pausers) == multiset(entries)
    && |t.answered| + |t.pausers| == |entries|
    && Answering(t.answered, t.results)
    && now == before + Reports(t.results)
  }

  /** Nobody has paused; what is not answered is still waiting. */
  ghost predicate Progress(t: Tally, entries: seq<Entry>, waiting: seq<Entry>, before: seq<StepRequest>, now: seq<StepRequest>) {
    && multiset(t.answered) + multiset(waiting) == multiset(entries)
    && Answering(t.answered, t.results)
    && now == before + Reports(t.results)
  }

  /** Answered, paused or waiting: nobody is missing. */
  ghost predicate Covers(t: Tally, entries: seq<Entry>, waiting: seq<Entry>, before: seq<StepRequest>, now: seq<StepRequest>) {
    && multiset(t.answered) + multiset(t.pausers) + multiset(waiting) == multiset(entries)
    && multiset(t.answered) <= multiset(entries)
    && Answering(t.answered, t.results)
    && now == before + Reports(t.results)
  }

  /** The record of a pause: those who were waiting are answered with a deferral, and all results are in the queue. */
  lemma PausedRecord(calls: seq<ToolCall>, entries: seq<Entry>, log: Log, t: Tally, waiting: seq<Entry>,
                     results: seq<Message>, start: seq<StepRequest>, before: seq<StepRequest>,
                     now: seq<StepRequest>) returns (b: BatchRecord)
    requires Covers(t, entries, waiting, start, before) && CallsAre(entries, calls) && LonePause(t.pausers)
    requires Answering(waiting, results) && now == before + Reports(results)
    requires |log.started| == |calls| && StartsAre(log.started, calls) && OutcomesAre(log.outcomes, log.ran)
    requires multiset(log.ran) == multiset(t.answered) + multiset(t.pausers)
    ensures Accounted(b) && b.calls == calls && b.started == log.started && b.ran == log.ran && b.outcomes == log.outcomes
    ensures b.entries == entries
    ensures multiset(b.results) <= multiset(AllMessages(now))
  {
    b := BatchRecord(calls, log.started, entries, log.ran, log.outcomes,
                     t.answered + waiting, t.results + results, Paused(t.pausers));
    AnsweringConcat(t.answered, t.results, waiting, results);
    ReportsJoin(start, t.results, results);
    ReportsInQueue(start, b.results);
  }

  lemma AnsweringConcat(a: seq<Entry>, p: seq<Message>, b: seq<Entry>, q: seq<Message>)
    requires Answering(a, p) && Answering(b, q)
    ensures Answering(a + b, p + q)
  {
  }

  lemma ReportsJoin(start: seq<StepRequest>, a: seq<Message>, b: seq<Message>)
    ensures start + Reports(a) + Reports(b) == start + Reports(a + b)
  {
    ReportsConcat(a, b);
    AppendReports(start, Reports(a), Reports(b));
  }

  lemma ReportsInQueue(start: seq<StepRequest>, results: seq<Message>)
    ensures multiset(results) <= multiset(AllMessages(start + Reports(results)))
  {
    AllMessagesConcat(start, Reports(results));
    ReportsCarry(results);
  }

  /** Reports carry their results and nothing else. */
  lemma {:induction false} ReportsCarry(results: seq<Message>)
    ensures AllMessages(Reports(results)) == results
  {
    if results != [] {
      ReportsCarry(results[1..]);
      assert Reports(results)[1..] == Reports(results[1..]);
      assert Messages(Report(results[0])) == [results[0]];
    }
  }

  lemma EmptyTally(items: seq<StepRequest>)
    ensures Tallies(Tally([], [], []), [], items, items)
    ensures forall entries :: Progress(Tally([], [], []), entries, entries, items, items)
  {
    assert items + [] == items;
  }

  ghost function ExtendTally(t: Tally, e: Entry, result: Option<Message>): Tally {
    if result.Some? then Tally(t.answered + [e], t.results + [result.value], t.pausers)
    else t.(pausers := t.pausers + [e])
  }

  /** Only what has run of the batch in hand can differ. */
  ghost predicate SameBatch(before: Log, now: Log) {
    now.ledger == before.ledger && now.started == before.started
  }

  lemma WaveGrows(now: seq<Entry>, before: seq<Entry>, wave: seq<Entry>, k: nat)
    requires k < |wave| && now == before + wave[..k]
    ensures now + [wave[k]] == before + wave[..k + 1]
  {
    assert wave[..k + 1] == wave[..k] + [wave[k]];
  }

  lemma TallyNext(t: Tally, wave: seq<Entry>, k: nat, result: Option<Message>,
                  before: seq<StepRequest>, now: seq<StepRequest>) returns (r: Tally)
    requires k < |wave| && Tallies(t, wave[..k], before, now)
    requires result.Some? ==> ResultId(result.value) == Some(wave[k].value.call.id)
    ensures Tallies(r, wave[..k + 1], before, now + (if result.Some? then [Report(result.value)] else []))
    ensures r.pausers != [] <==> t.pausers != [] || result.None?
  {
    r := ExtendTally(t, wave[k], result);
    assert wave[..k + 1] == wave[..k] + [wave[k]];
    if result.Some? {
      ReportsSnoc(t.results, result.value);
      AppendReports(before, Reports(t.results), [Report(result.value)]);
    } else {
      assert now + [] == now;
    }
  }

  /** The answers of a wave join those of the waves before it. */
  lemma JoinTally(so: Tally, wave: Tally, entries: seq<Entry>, waiting: seq<Entry>, ready: seq<Entry>,
                  blocked: seq<Entry>, start: seq<StepRequest>, before: seq<StepRequest>,
                  now: seq<StepRequest>) returns (r: Tally)
    requires Progress(so, entries, waiting, start, before) && Tallies(wave, ready, before, now)
    requires multiset(waiting) == multiset(ready) + multiset(blocked)
    ensures r.pausers == wave.pausers && Covers(r, entries, blocked, start, now)
    ensures multiset(r.answered) + multiset(r.pausers) == multiset(so.answered) + multiset(ready)
    ensures wave.pausers == [] ==> Progress(r, entries, blocked, start, now)
  {
    r := Tally(so.answered + wave.answered, so.results + wave.results, wave.pausers);
    AnsweringConcat(so.answered, so.results, wave.answered, wave.results);
    ReportsJoin(start, so.results, wave.results);
  }

  /** After a wave: everybody is covered, and a pause among callers that claimed everything is a lone one. */
  lemma WaveEnds(so: Tally, wave: Tally, entries: seq<Entry>, waiting: seq<Entry>, ready: seq<Entry>,
                 blocked: seq<Entry>, start: seq<StepRequest>, before: seq<StepRequest>,
                 now: seq<StepRequest>, ran: seq<Entry>) returns (r: Tally)
    requires Progress(so, entries, waiting, start, before) && Tallies(wave, ready, before, now)
    requires SplitInto(waiting, ready, blocked) && multiset(ran) == multiset(so.answered)
    ensures r.pausers == wave.pausers && Covers(r, entries, blocked, start, now)
    ensures multiset(ran + ready) == multiset(r.answered) + multiset(r.pausers)
    ensures if wave.pausers == [] then Progress(r, entries, blocked, start, now) else LonePause(r.pausers)
  {
    r := JoinTally(so, wave, entries, waiting, ready, blocked, start, before, now);
    if wave.pausers != [] { LoneInWave(waiting, ready, wave); }
  }

  lemma {:induction false} ReportsConcat(a: seq<Message>, b: seq<Message>)
    ensures Reports(a + b) == Reports(a) + Reports(b)
  {
    if a == [] {
      assert a + b == b;
      assert [] + Reports(b) == Reports(b);
    } else {
      ReportsConcat(a[1..], b);
      assert (a + b)[1..] == a[1..] + b && (a + b)[0] == a[0];
      AppendReports([Report(a[0])], Reports(a[1..]), Reports(b));
    }
  }

  lemma AppendReports(items: seq<StepRequest>, a: seq<StepRequest>, b: seq<StepRequest>)
    ensures items + a + b == items + (a + b)
  {
  }
}
