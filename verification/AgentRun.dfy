/**
 One run of the agent turn engine (crates/agent-core/src/lib.rs, `run_inner`). All
 that the engine cannot decide itself is in a `CallWorld`, one for each model call:
 what arrives from outside, what the provider streams, what the tools answer, and
 where a cancellation or a timeout fires.
 */
module AgentRun {
  import opened Wrappers
  import opened Json
  import opened History
  import opened HistoryPass
  import opened Steps
  import opened Schedule
  import opened Turn
  import opened Provider
  import opened ToolCalls
  import opened Batches

  // ----- The outside

  datatype ModelEvent =
    | TextDelta(text: string)
    | Note
    | CallDelta(delta: Delta)
    | Usage(input: nat, output: nat)
    | Finished(reason: Option<string>)

  datatype StreamItem = Event(event: ModelEvent) | Arrival(request: StepRequest)

  datatype Ending = StreamEnded | StreamErrored | StreamCancelled | DeadlinePassed | IdleTooLong

  datatype ToolOutcome =
    | Done(value: Value)
    | ContextChanged(retired: Value, value: Value, systems: seq<Message>)
    | AskInput
    | AskApproval
    | Broken(error: string)

  datatype Preparation = PrepareCancelled | PrepareTimedOut | Prepared(claims: seq<Claim>, mayPause: bool)

  datatype WaveFate = WaveCancelled | WaveTimedOut | WaveFinished

  datatype CallWorld = CallWorld(
    arriving: seq<StepRequest>, cancelled: bool,
    replies: nat -> Reply, pack: seq<Message> -> Option<seq<Message>>,
    items: seq<StreamItem>, ending: Ending,
    late: seq<StepRequest>, closing: seq<StepRequest>,
    validArguments: string -> bool, prepare: nat -> Preparation,
    fate: nat -> WaveFate, execute: nat -> ToolOutcome)

  datatype RunError = ProviderError(error: StreamError) | StreamBroke | InvalidToolCall(what: string)
                    | TokenLimit | CounterOverflow | InvalidRequest

  datatype Exit = Continue | Return(result: Result<RunResult, RunError>)

  // ----- Constants and small decisions

  const MAX_RETRIES_OF_A_KIND := 2
  const MAX_ADAPTIVE := 32768
  // The wording of prompts and reasons is abridged; no decision reads it.
  const REMINDER := Message(SYSTEM, Str("budget reminder"))
  const EMPTY_RETRY := Message("user", Str("empty: retry"))
  const INCOMPLETE_RETRY := Message("user", Str("truncated: retry"))

  const ELAPSED := "turn elapsed"
  const IDLE := "stream idle"
  const CALL_LIMIT := "model-call limit"
  const EMPTY_REASON := "empty responses"
  const INCOMPLETE := "truncated output"
  const REPEATED := "repeated failure"

  /** Four fifths of the model calls, rounded up, with the product saturating. */
  function ConvergenceThreshold(maxModelCalls: nat): nat { (Cap(4 * maxModelCalls, U32_MAX) + 4) / 5 }

  predicate RanOut(finish: Option<string>, callOutput: nat, cap: nat) {
    || (finish.Some? && (finish.value == "length" || finish.value == "max_tokens" || finish.value == "max_output_tokens"))
    || callOutput >= cap
  }

  function NextCap(cap: nat, isFixed: bool): (next: nat)
    ensures cap <= next && (next == cap || next <= MAX_ADAPTIVE) && (isFixed ==> next == cap)
  {
    if !isFixed && cap < MAX_ADAPTIVE then Cap(Cap(2 * cap, U32_MAX), MAX_ADAPTIVE) else cap
  }

  /** The step that asks the model again. */
  function Retry(kind: string, prompt: seq<Message>): StepRequest {
    NewRequest(kind, prompt, ActiveTurnOnly, false, true)
  }

  predicate IsSpace(c: char) {
    var n := c as int;
    || 9 <= n <= 13 || n == 0x20 || n == 0x85 || n == 0xA0 || n == 0x1680 || 0x2000 <= n <= 0x200A
    || n == 0x2028 || n == 0x2029 || n == 0x202F || n == 0x205F || n == 0x3000
  }

  predicate IsBlank(s: string) { forall c :: c in s ==> IsSpace(c) }

  function AssistantText(text: string): Message { Message(ASSISTANT, Str(text)) }

  /** The message that partial text leaves, if there is any. */
  function Partial(reply: string): seq<Message> { if reply == "" then [] else [AssistantText(reply)] }

  function CallValue(call: ToolCall): Value {
    Obj(map["id" := Str(call.id), "type" := Str("function"),
            "function" := Obj(map["name" := Str(call.name), "arguments" := Str(call.arguments)]),
            "provider_metadata" := if call.metadata.Some? then call.metadata.value else Null])
  }

  function CallValues(calls: seq<ToolCall>): seq<Value> {
    if calls == [] then [] else [CallValue(calls[0])] + CallValues(calls[1..])
  }

  function AssistantCalls(text: string, calls: seq<ToolCall>): Message {
    Message(ASSISTANT, Obj(map["text" := Str(text), "tool_calls" := Arr(CallValues(calls))]))
  }

  /** The system messages of a retired context leave, the new ones come first. */
  function Retain(messages: seq<Message>, retired: Value): seq<Message> {
    if messages == [] then []
    else (if messages[0].role == SYSTEM && messages[0].content == retired then [] else [messages[0]])
         + Retain(messages[1..], retired)
  }

  /** The steps among the first `n` that target the active turn. */
  function Accepted(requests: seq<StepRequest>, n: nat): seq<StepRequest>
    requires n <= |requests|
  {
    if n == 0 then []
    else Accepted(requests, n - 1)
         + (if TargetOf(requests[n - 1].admission, true) == Some(ToActiveTurn) then [requests[n - 1]] else [])
  }

  // ----- What a result must satisfy

  predicate WithinLimits(r: RunResult, l: Limits) {
    && r.modelCalls <= l.maxModelCalls && r.toolCalls <= l.maxToolCalls
    && Cap(r.inputTokens + r.outputTokens, U64_MAX) <= l.maxTotalTokens
  }

  predicate EndsAs(r: RunStatus, s: Status) {
    match r
    case RunCompleted => s.Completed?
    case RunAwaitingInput => s.AwaitingInput?
    case RunAwaitingApproval => s.AwaitingApproval?
    case RunFailed(_) => s.Failed?
    case RunCancelled => s.Cancelled?
  }

  /** What a stream has said so far. */
  datatype Heard = Heard(reply: string, slots: seq<Slot>, finish: Option<string>, callOutput: nat, ending: Ending, over: bool)

  /** Nothing was heard that a retry would lose. */
  predicate Silent(h: Heard) { h.reply == "" && h.slots == [] }

  function Silence(ending: Ending): Heard { Heard("", [], None, 0, ending, false) }

  function Hearing(h: Heard, item: StreamItem): Heard {
    match item
    case Arrival(_) => h
    case Event(TextDelta(delta)) => h.(reply := h.reply + delta)
    case Event(Note) => h
    case Event(CallDelta(delta)) => h.(slots := AddDelta(h.slots, delta))
    case Event(Usage(_, output)) => if output > h.callOutput then h.(callOutput := output) else h
    case Event(Finished(reason)) => h.(finish := reason, ending := StreamEnded, over := true)
  }

  /** What is heard of a stream; nothing after its completion counts. */
  function Listened(h: Heard, items: seq<StreamItem>): Heard
    decreases items
  {
    if items == [] || h.over then h else Listened(Hearing(h, items[0]), items[1..])
  }

  /** What a call's stream says in all. */
  function HeardIn(world: CallWorld): Heard { Listened(Silence(world.ending), world.items) }

  /** The response proposes tool calls. */
  predicate IsProposal(h: Heard, cap: nat) {
    h.ending.StreamEnded? && h.slots != [] && !RanOut(h.finish, h.callOutput, cap)
  }

  /** Tool calls come out in the order of their indices, whatever the order of the deltas. */
  lemma {:induction false} ListenedAscending(h: Heard, items: seq<StreamItem>)
    requires Ascending(h.slots)
    ensures Ascending(Listened(h, items).slots)
    decreases items
  {
    if items != [] && !h.over {
      if items[0].Event? && items[0].event.CallDelta? { AddDeltaAscending(h.slots, items[0].event.delta); }
      ListenedAscending(Hearing(h, items[0]), items[1..]);
    }
  }

  predicate IsPause(o: ToolOutcome) { o.AskInput? || o.AskApproval? }

  function KindOf(o: ToolOutcome): OutcomeKind {
    match o
    case Done(_) => Success
    case ContextChanged(_, _, _) => Success
    case Broken(_) => Failure
    case AskInput => Pause
    case AskApproval => Pause
  }

  /** The message a call is answered with, unless it pauses. */
  function ResultMessage(call: ToolCall, o: ToolOutcome, retryable: bool): (m: Option<Message>)
    ensures m.None? <==> IsPause(o)
    ensures m.Some? ==> ResultId(m.value) == Some(call.id)
  {
    match o
    case Done(value) => Some(ToolMessage(call.id, call.name, value))
    case ContextChanged(_, value, _) => Some(ToolMessage(call.id, call.name, value))
    case Broken(error) => Some(ToolMessage(call.id, call.name, FailureResult(error, retryable)))
    case AskInput => None
    case AskApproval => None
  }

  /** Arguments that are not JSON fail without asking the executor. */
  function OutcomeOf(world: CallWorld, p: PendingCall): ToolOutcome {
    if world.validArguments(p.call.arguments) then world.execute(p.index)
    else Broken("invalid JSON")
  }

  /** A call that may pause, or cannot be prepared, claims everything. */
  function ClaimsOf(world: CallWorld, index: nat, call: ToolCall): seq<Claim> {
    if world.validArguments(call.arguments) && world.prepare(index).Prepared? && !world.prepare(index).mayPause
    then world.prepare(index).claims
    else [GLOBAL_EXCLUSIVE]
  }

  function EntryOf(world: CallWorld, index: nat, call: ToolCall): Entry {
    Scheduled(PendingCall(index, call), Normalized(ClaimsOf(world, index, call)))
  }

  /** The first `n` calls of a batch, scheduled in order. */
  function Entries(world: CallWorld, calls: seq<ToolCall>, n: nat): seq<Entry>
    requires n <= |calls|
  {
    if n == 0 then [] else Entries(world, calls, n - 1) + [EntryOf(world, n - 1, calls[n - 1])]
  }

  lemma {:induction false} EntriesAre(world: CallWorld, calls: seq<ToolCall>, n: nat)
    requires n <= |calls|
    ensures |Entries(world, calls, n)| == n
    ensures forall i :: 0 <= i < n ==> Entries(world, calls, n)[i] == EntryOf(world, i, calls[i])
    ensures n == |calls| ==> CallsAre(Entries(world, calls, n), calls)
    ensures forall i :: 0 <= i < n ==> |Entries(world, calls, n)[i].claims| > 0
  {
    if n > 0 { EntriesAre(world, calls, n - 1); }
  }

  /** The executor announced that the call may pause. */
  predicate Announced(world: CallWorld, e: Entry) {
    world.prepare(e.value.index).Prepared? && world.prepare(e.value.index).mayPause
  }

  /** When a call that was announced as pausing pauses, it is the only one of its batch. */
  ghost predicate AnnouncedAlone(world: CallWorld, b: BatchRecord) {
    b.verdict.Paused? && (exists p :: p in b.verdict.pausers && Announced(world, p)) ==> |b.verdict.pausers| == 1
  }

  /** An announced call is scheduled to run alone, so nobody pauses beside it. */
  lemma AnnouncedPausesAlone(world: CallWorld, b: BatchRecord)
    requires Accounted(b) && b.entries == Entries(world, b.calls, |b.calls|)
    ensures AnnouncedAlone(world, b)
  {
    if b.verdict.Paused? {
      EntriesAre(world, b.calls, |b.calls|);
      forall p | p in b.verdict.pausers && Announced(world, p)
        ensures IsExclusive(p)
      {
        assert p in multiset(b.verdict.pausers);
        assert p in multiset(b.entries);
        var i :| 0 <= i < |b.entries| && b.entries[i] == p;
      }
    }
  }

  /** Attached media only, and an output cap that never fell. */
  ghost predicate GoodDispatches(dispatches: seq<ModelRequest>, initialCap: nat, cap: nat) {
    && (forall k :: 0 <= k < |dispatches| ==> AllAttached(dispatches[k]))
    && (forall k :: 0 <= k < |dispatches| ==> initialCap <= dispatches[k].maxOutputTokens <= cap)
    && (forall j, k :: 0 <= j < k < |dispatches| ==> dispatches[j].maxOutputTokens <= dispatches[k].maxOutputTokens)
  }

  // ----- Cancellation

  /** A cancelled result: the history and every queued message that outlives the turn. */
  ghost predicate HoldsOutliving(before: seq<Message>, items: seq<StepRequest>, after: seq<Message>) {
    multiset(after) == multiset(before) + multiset(AllMessages(KeepsTurn(items)))
  }

  /** The untouched history holds what outlives the turn exactly when nothing does. */
  lemma NothingOutlives(before: seq<Message>, items: seq<StepRequest>)
    ensures HoldsOutliving(before, items, before) <==> AllMessages(KeepsTurn(items)) == []
  {
    var more := AllMessages(KeepsTurn(items));
    if more != [] { assert multiset(before)[more[0]] < (multiset(before) + multiset(more))[more[0]]; }
  }

  const FOLLOW_UP := NewRequest("user_input", [Message("user", Str("next"))], ActiveOrNextTurn, false, false)

  /** The steps that arrive while the stream is read, up to its completion. */
  function Arrived(items: seq<StreamItem>): seq<StepRequest> {
    if items == [] || (items[0].Event? && items[0].event.Finished?) then []
    else (if items[0].Arrival? then [items[0].request] else []) + Arrived(items[1..])
  }

  /** The steps still to arrive. */
  function Awaited(h: Heard, items: seq<StreamItem>): seq<StepRequest> { if h.over then [] else Arrived(items) }

  /** What the next stream item does to what is heard and to the queue. */
  lemma ArrivedNext(queued: seq<StepRequest>, items: seq<StreamItem>, k: nat, h: Heard)
    requires k < |items| && !h.over
    ensures Listened(h, items[k..]) == Listened(Hearing(h, items[k]), items[k + 1..])
    ensures queued + Awaited(h, items[k..])
            == queued + (if items[k].Arrival? then [items[k].request] else []) + Awaited(Hearing(h, items[k]), items[k + 1..])
  {
    assert items[k..][1..] == items[k + 1..];
    AppendReports(queued, if items[k].Arrival? then [items[k].request] else [], Awaited(Hearing(h, items[k]), items[k + 1..]));
    assert [] + Arrived(items[k + 1..]) == Arrived(items[k + 1..]);
  }

  /** The stream item at `k` comes before the completion. */
  ghost predicate IsHeard(items: seq<StreamItem>, k: nat) {
    k < |items| && forall j :: 0 <= j < k ==> !(items[j].Event? && items[j].event.Finished?)
  }

  lemma {:induction false} ArrivedExactly(items: seq<StreamItem>, r: StepRequest)
    ensures r in Arrived(items) <==> exists k: nat :: IsHeard(items, k) && items[k] == Arrival(r)
  {
    if items != [] {
      ArrivedExactly(items[1..], r);
      if k: nat :| IsHeard(items, k) && items[k] == Arrival(r) && k > 0 {
        assert !(items[0].Event? && items[0].event.Finished?);
        assert IsHeard(items[1..], k - 1) && items[1..][k - 1] == Arrival(r);
      }
      if k: nat :| IsHeard(items[1..], k) && items[1..][k] == Arrival(r) && r in Arrived(items) {
        forall j | 0 <= j < k + 1
          ensures !(items[j].Event? && items[j].event.Finished?)
        {
          if j > 0 { assert items[j] == items[1..][j - 1]; }
        }
        assert IsHeard(items, k + 1) && items[k + 1] == Arrival(r);
      }
      if items[0] == Arrival(r) { assert IsHeard(items, 0); }
    }
  }

  lemma {:induction false} AcceptedTargetsTurn(requests: seq<StepRequest>, n: nat, r: StepRequest)
    requires n <= |requests| && r in Accepted(requests, n)
    ensures !r.admission.NewTurn?
  {
    if r in Accepted(requests, n - 1) { AcceptedTargetsTurn(requests, n - 1, r); }
  }

  /** A step for a new turn is queued if and only if it arrives as a stream item; between calls it is dropped. */
  lemma NewTurnStepNeedsStream(arriving: seq<StepRequest>, items: seq<StreamItem>, r: StepRequest)
    requires r.admission.NewTurn?
    ensures r in Accepted(arriving, |arriving|) + Arrived(items)
            <==> exists k: nat :: IsHeard(items, k) && items[k] == Arrival(r)
  {
    ArrivedExactly(items, r);
    if r in Accepted(arriving, |arriving|) { AcceptedTargetsTurn(arriving, |arriving|, r); }
  }

  /** The same step, arriving at either place. */
  lemma NewTurnStepAtBothPlaces(r: StepRequest)
    requires r.admission.NewTurn?
    ensures Accepted([r], 1) == [] && Arrived([Arrival(r)]) == [r]
  {
    assert [Arrival(r)][1..] == [];
  }

  class TurnRun {
    const limits: Limits
    const maxRetries: nat
    const failureLimit: nat
    const initialCap: nat
    const fixedCap: bool
    const machine: TurnMachine
    const journal: AgentJournal
    const queue: StepRequestQueue
    var messages: seq<Message>
    var media: map<string, Media>
    var cap: nat
    var text: string
    var inputTokens: nat
    var outputTokens: nat
    var modelCalls: nat
    var toolCalls: nat
    var emptyRetries: nat
    var incompleteRetries: nat
    var streamRetries: nat
    var reminded: bool
    var failures: map<string, nat>
    var dispatches: seq<ModelRequest>
    ghost var log: Log
    ghost var started: seq<Operation>

    /** The counters are the replay of the journal. */
    ghost predicate Books()
      reads this`text, this`inputTokens, this`outputTokens, this`modelCalls, this`toolCalls, this`started, journal
    {
      && journal.Valid() && journal.started == started
      && journal.projection.assistantText == text
      && journal.projection.inputTokens == inputTokens && journal.projection.outputTokens == outputTokens
      && journal.projection.modelCalls == modelCalls && journal.projection.toolCalls == toolCalls
    }

    /** The machine counts with the run, refused nothing, and is within every limit. */
    ghost predicate Bounds()
      reads this`inputTokens, this`outputTokens, this`modelCalls, this`toolCalls, machine
    {
      && ValidLimits(limits) && machine.limits == limits && machine.refusals == 0 && machine.costMicros == 0
      && machine.modelCalls == modelCalls <= limits.maxModelCalls
      && machine.toolCalls == toolCalls <= limits.maxToolCalls
      && machine.totalTokens == Cap(inputTokens + outputTokens, U64_MAX) <= limits.maxTotalTokens
      && inputTokens <= U64_MAX && outputTokens <= U64_MAX
    }

    /** The output cap only grows, to the adaptive maximum at most, and not when it is fixed. */
    ghost predicate CapBounds()
      reads this`cap
    {
      && initialCap <= cap && (cap == initialCap || cap <= MAX_ADAPTIVE) && (fixedCap ==> cap == initialCap)
    }

    /** Every dispatch carried attached media only and a cap that never fell. */
    ghost predicate Dispatched()
      reads this`dispatches, this`modelCalls, this`cap
    {
      |dispatches| <= modelCalls * (maxRetries + 3) && GoodDispatches(dispatches, initialCap, cap)
    }

    ghost predicate Valid()
      reads this`text, this`inputTokens, this`outputTokens, this`modelCalls, this`toolCalls, this`started
      reads this`cap, this`dispatches, machine, journal
    {
      Books() && Bounds() && CapBounds() && Dispatched()
    }

    ghost predicate Ledgered()
      reads this`failures, this`log, this`started
    {
      LogOk(failures, log, started)
    }

    /** No batch is in hand. */
    ghost predicate Closed()
      reads this`log
    {
      log.started == [] && log.ran == [] && log.outcomes == []
    }

    /** No fingerprint has reached the failure limit. */
    ghost predicate BelowFailureLimit()
      reads this`failures
    {
      AllBelow(failures, failureLimit)
    }

    /** The state at the head of the outer loop. */
    ghost predicate AtHead()
      reads this`text, this`inputTokens, this`outputTokens, this`modelCalls, this`toolCalls, this`started
      reads this`cap, this`dispatches, this`log, machine, journal
    {
      Valid() && machine.status == CallingModel && Closed()
    }

    /** The same with the ledger, and every failure count below the limit. */
    ghost predicate Ready()
      reads this, machine, journal
    {
      AtHead() && Ledgered() && BelowFailureLimit()
    }

    constructor (limits: Limits, maxRetries: nat, failureLimit: nat, request: ModelRequest, fixedCap: bool)
      requires ValidLimits(limits)
      ensures Valid() && Ledgered() && BelowFailureLimit() && Closed() && machine.status == Idle && queue.items == []
      ensures fresh(machine) && fresh(journal) && fresh(queue)
      ensures this.limits == limits && this.maxRetries == maxRetries && this.initialCap == request.maxOutputTokens
      ensures this.fixedCap == fixedCap && this.failureLimit == failureLimit
      ensures modelCalls == 0 && dispatches == [] && log.ledger == NoBatch
      ensures messages == request.messages && !reminded
    {
      this.limits, this.maxRetries, this.failureLimit := limits, maxRetries, failureLimit;
      this.initialCap, this.fixedCap := request.maxOutputTokens, fixedCap;
      machine := new TurnMachine(limits);
      journal := new AgentJournal();
      queue := new StepRequestQueue();
      messages, media, cap := request.messages, request.media, request.maxOutputTokens;
      text, inputTokens, outputTokens, modelCalls, toolCalls := "", 0, 0, 0, 0;
      emptyRetries, incompleteRetries, streamRetries, reminded := 0, 0, 0, false;
      failures, dispatches, log, started := map[], [], EMPTY_LOG, [];
      EmptyLogIsOk();
    }

    /** The opening transitions and the first step. */
    method Begin()
      requires Valid() && Closed() && machine.status == Idle && queue.items == []
      modifies this`messages, queue, machine`status, machine`refusals, journal
      ensures AtHead() && Opens(old(messages), messages, queue.items)
    {
      Emit(PreparingContext);
      Emit(CallingModel);
      InitialQueue();
    }

    /** A legal transition, journalled; the source's `?` behind it never returns. */
    method Emit(next: Status)
      requires Valid() && Legal(machine.status, next)
      modifies machine`status, machine`refusals, journal
      ensures Valid() && machine.status == next && journal.projection.status == Some(next)
    {
      var e := machine.Transition(next);
      assert e.None?;
      journal.Append(StatusChanged(next));
    }

    /** The last message of the request becomes the first step. */
    method InitialQueue()
      requires queue.items == []
      modifies this`messages, queue
      ensures Opens(old(messages), messages, queue.items)
    {
      if messages == [] {
        var _ := queue.Admit(NewRequest("initial_model_step", [], ActiveOrNewTurn, false, true), false);
      } else {
        var last := messages[|messages| - 1];
        messages := messages[..|messages| - 1];
        var user := last.role == "user";
        var _ := queue.Admit(NewRequest(if user then "user_input" else "resume_context", [last],
                                        if user then NewTurn else ActiveOrNewTurn, false, true), false);
      }
    }

    function MakeResult(status: RunStatus): RunResult
      reads this, journal
    {
      RunResult(status, text, messages, inputTokens, outputTokens, modelCalls, toolCalls, journal.operations)
    }

    /** An exit is good: a result replays to its own counters, keeps the limits and names the machine's status. */
    ghost predicate Good(exit: Exit)
      reads this`log, machine, journal
    {
      exit.Return? ==>
        match exit.result
        case Ok(r) => SelfConsistent(r) && WithinLimits(r, limits) && EndsAs(r.status, machine.status) && machine.refusals == 0
                      && Replay(r.ops).value.status == Some(machine.status) && r.ops == journal.operations && Closed()
        case Err(e) => machine.refusals == 0 && !e.InvalidRequest? && (e.CounterOverflow? ==> limits.maxToolCalls == U32_MAX)
    }

    /** Ends the run with a journalled status and the result. */
    method Finish(next: Status, status: RunStatus) returns (exit: Exit)
      requires Valid() && Closed() && Legal(machine.status, next) && EndsAs(status, next)
      modifies machine`status, machine`refusals, journal
      ensures Valid() && exit.Return? && exit.result.Ok? && Good(exit) && machine.status == next
      ensures exit.result.value.messages == messages && exit.result.value.status == status
    {
      Emit(next);
      return Return(Ok(MakeResult(status)));
    }

    method MaterializePending()
      modifies this`messages, queue
      ensures queue.items == []
      ensures |messages| >= |old(messages)| && messages[..|old(messages)|] == old(messages)
      ensures multiset(messages) == multiset(old(messages)) + multiset(old(AllMessages(queue.items)))
    {
      var waiting := queue.DrainMaterialized();
      messages := messages + waiting;
    }

    method FinishCancelled() returns (exit: Exit)
      requires Valid() && Closed() && Legal(machine.status, Cancelled)
      modifies this`messages, queue, machine`status, machine`refusals, journal
      ensures Valid() && exit.Return? && exit.result.Ok? && Good(exit) && machine.status == Cancelled
      ensures HoldsOutliving(old(messages), old(queue.items), messages) && exit.result.value.messages == messages
    {
      queue.AbortTurnScoped();
      MaterializePending();
      exit := Finish(Cancelled, RunCancelled);
    }

    method FinishFailed(reason: string) returns (exit: Exit)
      requires Valid() && Closed() && Legal(machine.status, Failed)
      modifies this`messages, queue, machine`status, machine`refusals, journal
      ensures Valid() && exit.Return? && exit.result.Ok? && Good(exit)
      ensures machine.status == Failed && exit.result.value.status == RunFailed(reason)
      ensures multiset(messages) == multiset(old(messages)) + multiset(AllMessages(old(queue.items)))
      ensures exit.result.value.messages == messages
    {
      MaterializePending();
      exit := Finish(Failed, RunFailed(reason));
    }

    // ----- The head of the loop

    /** External steps are taken only when they target the active turn. */
    method DrainExternal(requests: seq<StepRequest>)
      modifies queue
      ensures queue.items == old(queue.items) + Accepted(requests, |requests|)
    {
      assert queue.items + [] == queue.items;
      for k := 0 to |requests|
        invariant queue.items == old(queue.items) + Accepted(requests, k)
      {
        if TargetOf(requests[k].admission, true) == Some(ToActiveTurn) { queue.Enqueue(requests[k]); }
      }
    }

    /** Near the end of the budget the model is reminded once. */
    method Remind()
      modifies this`messages, this`reminded
      ensures !old(reminded) && modelCalls >= ConvergenceThreshold(limits.maxModelCalls)
              ==> messages == old(messages) + [REMINDER] && reminded
      ensures old(reminded) ==> messages == old(messages) && reminded
      ensures !old(reminded) && modelCalls < ConvergenceThreshold(limits.maxModelCalls)
              ==> messages == old(messages) && !reminded
    {
      if !reminded && modelCalls >= ConvergenceThreshold(limits.maxModelCalls) {
        messages := messages + [REMINDER];
        reminded := true;
      }
    }

    /** The next batch of steps joins the history; no message is lost or doubled, and no tool result stays behind. */
    method JoinBatch() returns (joined: bool)
      modifies this`messages, queue
      ensures joined <==> Live(old(queue.items)) != []
      ensures queue.items == Waiting(old(queue.items)) && messages == old(messages) + Taken(old(queue.items))
      ensures StepTaken(old(messages), old(queue.items), messages, queue.items)
    {
      ghost var items := queue.items;
      BatchTakesResults(items);
      var batch := queue.TakeNextBatch();
      if batch.None? { return false; }
      MoveMessages(messages, BatchMessages(batch.value), AllMessages(queue.items), AllMessages(items));
      messages := messages + BatchMessages(batch.value);
      return true;
    }

    /** The next batch of steps joins the history, unless the run is over. */
    method TakeStep(world: CallWorld) returns (exit: Exit)
      requires AtHead()
      modifies this`messages, queue, machine`status, machine`refusals, journal
      ensures Good(exit)
      ensures exit.Continue? ==> AtHead()
      ensures exit.Return? ==> Valid() && exit.result.Ok? && machine.status == (if world.cancelled then Cancelled else Completed)
      ensures world.cancelled ==> exit.Return?
      ensures var due := old(queue.items) + Accepted(world.arriving, |world.arriving|);
              && (exit.Continue? <==> !world.cancelled && Live(due) != [])
              && (exit.Continue? ==> queue.items == Waiting(due) && messages == old(messages) + Taken(due)
                                     && StepTaken(old(messages), due, messages, queue.items))
      ensures world.cancelled ==>
                HoldsOutliving(old(messages), old(queue.items) + Accepted(world.arriving, |world.arriving|),
                               exit.result.value.messages)
    {
      DrainExternal(world.arriving);
      if world.cancelled {
        exit := FinishCancelled();
        return;
      }
      var joined := JoinBatch();
      if !joined {
        exit := Finish(Completed, RunCompleted);
        return;
      }
      return Continue;
    }

    /** The run fails at the limit of model calls; below it the model may be reminded. */
    method CheckCalls() returns (exit: Exit)
      requires AtHead()
      modifies this`messages, this`reminded, queue, machine`status, machine`refusals, journal
      ensures Good(exit)
      ensures exit.Continue? <==> modelCalls < limits.maxModelCalls
      ensures exit.Continue? ==> AtHead() && queue.items == old(queue.items)
      ensures exit.Continue? && modelCalls < ConvergenceThreshold(limits.maxModelCalls) ==> messages == old(messages)
      ensures exit.Return? ==> Valid() && exit.result.Ok? && exit.result.value.status == RunFailed(CALL_LIMIT)
    {
      if modelCalls >= limits.maxModelCalls {
        exit := FinishFailed(CALL_LIMIT);
        return;
      }
      Remind();
      return Continue;
    }

    /** Up to the point where the model is called. */
    method Head(world: CallWorld) returns (exit: Exit)
      requires AtHead()
      modifies this`messages, this`reminded, queue, machine`status, machine`refusals, journal
      ensures Good(exit)
      ensures exit.Continue? ==> AtHead() && modelCalls < limits.maxModelCalls
      ensures exit.Return? ==> Valid() && exit.result.Ok?
      ensures var due := old(queue.items) + Accepted(world.arriving, |world.arriving|);
              && (exit.Continue? <==> !world.cancelled && Live(due) != [] && modelCalls < limits.maxModelCalls)
              && (exit.Continue? ==> queue.items == Waiting(due))
              && (exit.Continue? && modelCalls < ConvergenceThreshold(limits.maxModelCalls)
                  ==> messages == old(messages) + Taken(due))
    {
      exit := TakeStep(world);
      if exit.Continue? { exit := CheckCalls(); }
    }

    // ----- Calling the model

    /** Both history rewriters, in front of every call. */
    method RewriteHistory()
      requires AtHead()
      modifies this`messages, this`media
      ensures AtHead() && messages == Compact(old(messages)) && media == RetainAttached(messages, old(media))
      ensures AllAttached(ModelRequest(messages, media, cap))
    {
      var compacted, _ := CompactSupersededToolHistory(messages);
      messages := compacted;
      media := RetainAttached(messages, media);
    }

    /** What the interrupted or failed call makes of the run. */
    method CallFailed(error: StreamError) returns (exit: Exit)
      requires AtHead()
      modifies this`messages, queue, machine`status, machine`refusals, journal
      ensures Good(exit) && exit.Return? && (exit.result.Ok? ==> Valid()) && (exit.result.Err? <==> error.Gateway?)
      ensures exit.result.Ok? ==> machine.status == (if error.why.ByCancellation? then Cancelled else Failed)
      ensures error == Interruption(ByCancellation) ==>
                && exit.result.value.status == RunCancelled
                && exit.result.value.messages == old(messages) && queue.items == old(queue.items)
                && (HoldsOutliving(old(messages), old(queue.items), exit.result.value.messages)
                    <==> AllMessages(KeepsTurn(old(queue.items))) == [])
      ensures error.Interruption? && !error.why.ByCancellation? ==>
                multiset(exit.result.value.messages) == multiset(old(messages)) + multiset(old(AllMessages(queue.items)))
    {
      NothingOutlives(messages, queue.items);
      match error {
        case Interruption(ByCancellation) => exit := Finish(Cancelled, RunCancelled);
        case Interruption(ByDeadline) => exit := FinishFailed(ELAPSED);
        case Interruption(ByIdleTimeout) => exit := FinishFailed(IDLE);
        case Gateway(_) => return Return(Err(ProviderError(error)));
      }
    }

    /** The retry loop, and its dispatches in the log. */
    method Send(world: CallWorld) returns (outcome: Result<ModelRequest, StreamError>)
      requires AtHead() && AllAttached(ModelRequest(messages, media, cap))
      requires modelCalls > 0 && |dispatches| <= (modelCalls - 1) * (maxRetries + 3)
      modifies this`dispatches
      ensures AtHead() && |old(dispatches)| < |dispatches| <= |old(dispatches)| + maxRetries + 3
      ensures world.replies(0).Interrupted? ==> outcome == Err(Interruption(world.replies(0).why))
    {
      var sent;
      outcome, sent := StreamWithRetry(ModelRequest(messages, media, cap), maxRetries, world.replies, world.pack);
      LogDispatches(sent);
    }

    /** The call with its retries; every dispatch is logged. */
    method Dispatch(world: CallWorld) returns (exit: Exit)
      requires AtHead() && modelCalls < limits.maxModelCalls
      modifies this`messages, this`media, this`modelCalls, this`dispatches, queue, journal
      modifies machine`status, machine`refusals, machine`modelCalls, machine`costMicros
      ensures Good(exit) && modelCalls == old(modelCalls) + 1
      ensures exit.Continue? ==> AtHead()
      ensures exit.Return? && exit.result.Ok? ==> Valid()
      ensures Dispatched() && |old(dispatches)| < |dispatches| <= |old(dispatches)| + maxRetries + 3
      ensures world.replies(0) == Interrupted(ByCancellation) ==>
                exit.Return? && exit.result.Ok? && exit.result.value.status == RunCancelled
      ensures exit.Return? && exit.result.Ok? && exit.result.value.status == RunCancelled ==>
                && exit.result.value.messages == Compact(old(messages)) && queue.items == old(queue.items)
                && (HoldsOutliving(Compact(old(messages)), old(queue.items), exit.result.value.messages)
                    <==> AllMessages(KeepsTurn(old(queue.items))) == [])
    {
      PrepareCall();
      var outcome := Send(world);
      if outcome.Err? {
        exit := CallFailed(outcome.error);
        return;
      }
      messages := outcome.value.messages;
      media := outcome.value.media;
      return Continue;
    }

    method PrepareCall()
      requires AtHead() && modelCalls < limits.maxModelCalls
      modifies this`messages, this`media, this`modelCalls, machine`modelCalls, machine`costMicros, machine`refusals, journal
      ensures AtHead() && modelCalls == old(modelCalls) + 1 && AllAttached(ModelRequest(messages, media, cap))
      ensures messages == Compact(old(messages))
      ensures |dispatches| <= (modelCalls - 1) * (maxRetries + 3)
    {
      RewriteHistory();
      CountModelCall();
    }

    /** Counting a model call within the limit is never refused. */
    method CountModelCall()
      requires AtHead() && modelCalls < limits.maxModelCalls
      modifies this`modelCalls, machine`modelCalls, machine`costMicros, machine`refusals, journal
      ensures AtHead() && modelCalls == old(modelCalls) + 1
      ensures |dispatches| <= (modelCalls - 1) * (maxRetries + 3)
    {
      var e := machine.RecordModelCall(0);
      assert e.None?;
      MoreRoom(|dispatches|, modelCalls, maxRetries + 3);
      modelCalls := modelCalls + 1;
      journal.Append(ModelCallStarted);
    }

    /** The dispatches of the call in progress join the log. */
    method LogDispatches(sent: seq<ModelRequest>)
      requires Valid() && modelCalls > 0 && |dispatches| <= (modelCalls - 1) * (maxRetries + 3)
      requires |sent| <= maxRetries + 3
      requires forall k :: 0 <= k < |sent| ==> AllAttached(sent[k])
      requires forall k :: 0 <= k < |sent| ==> sent[k].maxOutputTokens == cap
      modifies this`dispatches
      ensures Valid() && dispatches == old(dispatches) + sent
    {
      OneMore(modelCalls - 1, maxRetries + 3);
      dispatches := dispatches + sent;
    }

    // ----- Listening to the stream

    /** Text of the response, once it is final: journalled and counted as the assistant's. */
    method RecordText(reply: string)
      requires Valid()
      modifies this`text, journal
      ensures Valid() && text == old(text) + reply
    {
      if reply != "" { journal.Append(TextAppended(reply)); }
      text := text + reply;
    }

    /** Partial text survives an ending that is not a completion. */
    method PreservePartial(reply: string)
      requires Valid()
      modifies this`text, this`messages, journal
      ensures Valid() && text == old(text) + reply
      ensures messages == old(messages) + Partial(reply)
    {
      assert messages + [] == messages;
      RecordText(reply);
      if reply != "" { messages := messages + [AssistantText(reply)]; }
    }

    /** Tokens are counted by the machine first; `ok` is false when its limit is exceeded. */
    method AddUsage(input: nat, output: nat) returns (ok: bool)
      requires Valid()
      modifies this`inputTokens, this`outputTokens, machine`totalTokens, journal
      ensures machine.refusals == 0
      ensures ok ==> Valid() && inputTokens == Cap(old(inputTokens) + input, U64_MAX)
                     && outputTokens == Cap(old(outputTokens) + output, U64_MAX)
      ensures !ok ==> Cap(Cap(old(inputTokens + outputTokens) + input, U64_MAX) + output, U64_MAX) > limits.maxTotalTokens
    {
      SaturatingSum(inputTokens, outputTokens, input, output);
      var e := machine.RecordUsage(input, output);
      if e.Some? { return false; }
      inputTokens := Cap(inputTokens + input, U64_MAX);
      outputTokens := Cap(outputTokens + output, U64_MAX);
      journal.Append(UsageAdded(input, output));
      return true;
    }

    /** One item of the stream. */
    method Hear(item: StreamItem, before: Heard) returns (heard: Heard, ok: bool)
      requires AtHead()
      modifies this`inputTokens, this`outputTokens, queue, machine`totalTokens, journal
      ensures machine.refusals == 0
      ensures ok ==> AtHead() && heard == Hearing(before, item)
      ensures queue.items == old(queue.items) + (if item.Arrival? then [item.request] else [])
    {
      heard, ok := before, true;
      assert queue.items + [] == queue.items;
      match item {
        case Arrival(request) =>
          var target := queue.Admit(request, true);
          assert target.Some?;
        case Event(TextDelta(delta)) => heard := heard.(reply := heard.reply + delta);
        case Event(Note) =>
        case Event(CallDelta(delta)) => heard := heard.(slots := AddDelta(heard.slots, delta));
        case Event(Usage(input, output)) =>
          ok := AddUsage(input, output);
          if output > heard.callOutput { heard := heard.(callOutput := output); }
        case Event(Finished(reason)) => heard := heard.(finish := reason, ending := StreamEnded, over := true);
      }
    }

    /** The items of the stream, up to its completion; `ok` is false when the token limit stopped it. */
    method HearAll(world: CallWorld) returns (heard: Heard, ok: bool)
      requires AtHead()
      modifies this`inputTokens, this`outputTokens, queue, machine`totalTokens, journal
      ensures machine.refusals == 0
      ensures ok ==> AtHead() && heard == HeardIn(world) && queue.items == old(queue.items) + Arrived(world.items)
    {
      heard, ok := Silence(world.ending), true;
      var k := 0;
      assert world.items[0..] == world.items;
      while k < |world.items| && !heard.over
        invariant 0 <= k <= |world.items| && AtHead()
        invariant Listened(heard, world.items[k..]) == HeardIn(world)
        invariant queue.items + Awaited(heard, world.items[k..]) == old(queue.items) + Arrived(world.items)
      {
        ArrivedNext(queue.items, world.items, k, heard);
        heard, ok := Hear(world.items[k], heard);
        if !ok { return; }
        k := k + 1;
      }
      assert queue.items + [] == queue.items;
    }

    /** The whole stream, up to its end or whatever cuts it off. */
    method Listen(world: CallWorld) returns (exit: Exit, heard: Heard)
      requires AtHead()
      modifies this`messages, this`text, this`inputTokens, this`outputTokens, queue, journal
      modifies machine`status, machine`refusals, machine`totalTokens
      ensures Good(exit)
      ensures exit.Continue? ==> AtHead() && heard == HeardIn(world) && !heard.ending.StreamCancelled?
      ensures exit.Continue? ==> queue.items == old(queue.items) + Arrived(world.items)
      ensures exit.Return? && exit.result.Ok? ==>
                && Valid() && machine.status == Cancelled && HeardIn(world).ending.StreamCancelled?
                && HoldsOutliving(old(messages) + Partial(HeardIn(world).reply), old(queue.items) + Arrived(world.items),
                                  exit.result.value.messages)
    {
      var ok;
      heard, ok := HearAll(world);
      exit := Continue;
      if !ok {
        exit := Return(Err(TokenLimit));
      } else if heard.ending.StreamCancelled? {
        exit := FinishPartial(heard.reply);
      }
    }

    /** A cancelled stream: what was said is kept, and what outlives the turn. */
    method FinishPartial(reply: string) returns (exit: Exit)
      requires AtHead()
      modifies this`messages, this`text, queue, machine`status, machine`refusals, journal
      ensures Valid() && exit.Return? && exit.result.Ok? && Good(exit) && machine.status == Cancelled
      ensures HoldsOutliving(old(messages) + Partial(reply), old(queue.items), exit.result.value.messages)
    {
      PreservePartial(reply);
      exit := FinishCancelled();
    }

    // ----- Judging the response

    method EnqueueRetry(kind: string, prompt: seq<Message>)
      modifies queue
      ensures queue.items == old(queue.items) + [Retry(kind, prompt)]
    {
      var target := queue.Admit(Retry(kind, prompt), true);
      assert target.Some?;
    }

    method GrowCap(ranOut: bool)
      requires Valid()
      modifies this`cap
      ensures Valid() && cap == if ranOut then NextCap(old(cap), fixedCap) else old(cap)
    {
      if ranOut { cap := NextCap(cap, fixedCap); }
    }

    /** The stream broke or stalled: retry it silently a few times, as long as nothing was heard. */
    method JudgeBroken(heard: Heard) returns (exit: Exit)
      requires AtHead() && !heard.ending.StreamEnded? && !heard.ending.StreamCancelled?
      modifies this`messages, this`text, this`streamRetries, queue, machine`status, machine`refusals, journal
      ensures Good(exit) && Valid()
      ensures exit.Continue? <==> Silent(heard) && old(streamRetries) < MAX_RETRIES_OF_A_KIND && !heard.ending.DeadlinePassed?
      ensures exit.Continue? ==> streamRetries == old(streamRetries) + 1 && text == old(text) && messages == old(messages)
                                 && queue.items == old(queue.items) + [Retry("model_stream_retry", [])]
      ensures exit.Return? ==> text == old(text) + heard.reply && (exit.result.Err? <==> heard.ending.StreamErrored?)
      ensures exit.Continue? ==> AtHead()
    {
      if Silent(heard) && streamRetries < MAX_RETRIES_OF_A_KIND && !heard.ending.DeadlinePassed? {
        streamRetries := streamRetries + 1;
        EnqueueRetry("model_stream_retry", []);
        return Continue;
      }
      PreservePartial(heard.reply);
      if heard.ending.StreamErrored? { return Return(Err(StreamBroke)); }
      exit := FinishFailed(if heard.ending.IdleTooLong? then IDLE else ELAPSED);
    }

    /** Nothing but blanks and no call. */
    method JudgeEmpty(heard: Heard) returns (exit: Exit)
      requires AtHead()
      modifies this`messages, this`emptyRetries, this`cap, queue, machine`status, machine`refusals, journal
      ensures Good(exit) && Valid()
      ensures exit.Continue? <==> old(emptyRetries) < MAX_RETRIES_OF_A_KIND
      ensures exit.Continue? ==> emptyRetries == old(emptyRetries) + 1 && messages == old(messages)
                                 && queue.items == old(queue.items) + [Retry("empty_model_retry", [EMPTY_RETRY])]
      ensures exit.Continue? ==>
                cap == if RanOut(heard.finish, heard.callOutput, old(cap)) then NextCap(old(cap), fixedCap) else old(cap)
      ensures exit.Continue? ==> AtHead()
    {
      if emptyRetries < MAX_RETRIES_OF_A_KIND {
        emptyRetries := emptyRetries + 1;
        GrowCap(RanOut(heard.finish, heard.callOutput, cap));
        EnqueueRetry("empty_model_retry", [EMPTY_RETRY]);
        return Continue;
      }
      exit := FinishFailed(EMPTY_REASON);
    }

    method RetryIncomplete()
      requires Valid()
      modifies this`incompleteRetries, this`cap, queue
      ensures Valid() && incompleteRetries == old(incompleteRetries) + 1 && cap == NextCap(old(cap), fixedCap)
      ensures queue.items == old(queue.items) + [Retry("incomplete_model_retry", [INCOMPLETE_RETRY])]
    {
      incompleteRetries := incompleteRetries + 1;
      GrowCap(true);
      EnqueueRetry("incomplete_model_retry", [INCOMPLETE_RETRY]);
    }

    /** The response was cut off by the output limit. */
    method JudgeIncomplete(heard: Heard) returns (exit: Exit)
      requires AtHead()
      modifies this`messages, this`text, this`incompleteRetries, this`cap, queue, machine`status, machine`refusals, journal
      ensures Good(exit) && Valid() && text == old(text) + heard.reply
      ensures exit.Continue? <==> old(incompleteRetries) < MAX_RETRIES_OF_A_KIND
      ensures exit.Continue? ==> incompleteRetries == old(incompleteRetries) + 1 && cap == NextCap(old(cap), fixedCap)
                                 && queue.items == old(queue.items) + [Retry("incomplete_model_retry", [INCOMPLETE_RETRY])]
      ensures exit.Continue? ==> AtHead()
    {
      PreservePartial(heard.reply);
      if incompleteRetries < MAX_RETRIES_OF_A_KIND {
        RetryIncomplete();
        return Continue;
      }
      exit := FinishFailed(INCOMPLETE);
    }

    /** A plain answer ends the run, unless more steps are waiting. */
    method Answer(heard: Heard, world: CallWorld) returns (exit: Exit)
      requires AtHead()
      modifies this`messages, queue, machine`status, machine`refusals, journal
      ensures Good(exit) && Valid() && messages == old(messages) + [AssistantText(heard.reply)]
      ensures exit.Continue? ==> AtHead() && Live(queue.items) != []
      ensures exit.Return? ==> machine.status == Completed && Live(queue.items) == []
    {
      messages := messages + [AssistantText(heard.reply)];
      DrainExternal(world.late);
      var pending := queue.HasPendingRequests();
      if pending { return Continue; }
      DrainExternal(world.closing);
      pending := queue.HasPendingRequests();
      if pending { return Continue; }
      exit := Finish(Completed, RunCompleted);
    }

    /** The decision after a stream; `proceed` asks for the tool phase. */
    method Judge(heard: Heard, world: CallWorld) returns (exit: Exit, proceed: bool)
      requires AtHead() && !heard.ending.StreamCancelled?
      modifies this`messages, this`text, this`streamRetries, this`emptyRetries, this`incompleteRetries, this`cap
      modifies queue, machine`status, machine`refusals, journal
      ensures Good(exit) && Valid()
      ensures exit.Continue? ==> AtHead()
      ensures proceed <==> IsProposal(heard, old(cap))
      ensures proceed ==> exit.Continue? && text == old(text) + heard.reply
                          && streamRetries == 0 && emptyRetries == 0 && incompleteRetries == 0
    {
      proceed := false;
      if !heard.ending.StreamEnded? {
        exit := JudgeBroken(heard);
        return;
      }
      streamRetries := 0;
      exit, proceed := JudgeEnded(heard, world);
    }

    /** The decision after a stream that came to its end. */
    method JudgeEnded(heard: Heard, world: CallWorld) returns (exit: Exit, proceed: bool)
      requires AtHead()
      modifies this`messages, this`text, this`emptyRetries, this`incompleteRetries, this`cap
      modifies queue, machine`status, machine`refusals, journal
      ensures Good(exit) && Valid()
      ensures exit.Continue? ==> AtHead()
      ensures proceed <==> heard.slots != [] && !RanOut(heard.finish, heard.callOutput, old(cap))
      ensures proceed ==> exit.Continue? && text == old(text) + heard.reply && emptyRetries == 0 && incompleteRetries == 0
    {
      proceed := false;
      if heard.slots == [] && IsBlank(heard.reply) {
        exit := JudgeEmpty(heard);
        return;
      }
      emptyRetries := 0;
      if RanOut(heard.finish, heard.callOutput, cap) {
        exit := JudgeIncomplete(heard);
        return;
      }
      incompleteRetries := 0;
      exit := JudgeComplete(heard, world);
      proceed := exit.Continue? && heard.slots != [];
    }

    /** A complete response: its text is final, and without tool calls it is the answer. */
    method JudgeComplete(heard: Heard, world: CallWorld) returns (exit: Exit)
      requires AtHead()
      modifies this`messages, this`text, queue, machine`status, machine`refusals, journal
      ensures Good(exit) && Valid() && text == old(text) + heard.reply
      ensures exit.Continue? ==> AtHead()
      ensures heard.slots != [] ==> exit.Continue? && messages == old(messages)
    {
      RecordText(heard.reply);
      if heard.slots == [] {
        exit := Answer(heard, world);
      } else {
        exit := Continue;
      }
    }

    // ----- Proposing a batch

    /** The state while tools run. */
    ghost predicate Running()
      reads this, machine, journal
    {
      Valid() && machine.status == RunningTool && Ledgered() && BelowFailureLimit()
    }

    /** The record is the one of the batch in hand. */
    ghost predicate IsInHand(b: BatchRecord)
      reads this`log
    {
      log.started == b.started && log.ran == b.ran && log.outcomes == b.outcomes
    }

    method Record(ghost b: BatchRecord)
      requires Ledgered() && Accounted(b) && IsInHand(b)
      modifies this`log
      ensures Ledgered() && log == WithBatch(old(log), b)
    {
      LogBatch(failures, log, started, b);
      log := WithBatch(log, b);
    }

    /** A batch over the limit executes nothing: each of its calls gets a deferred result at once. */
    method DeferBatch(calls: seq<ToolCall>) returns (exit: Exit)
      requires AtHead() && Ledgered()
      modifies this`messages, this`log, queue, machine`status, machine`refusals, journal
      ensures Valid() && Ledgered() && Good(exit) && exit.Return? && exit.result.Ok?
      ensures log.ledger == Batches(old(log.ledger), BatchRecord(calls, [], [], [], [], [], LimitMessages(calls), AllDeferred))
      ensures old(messages) + LimitMessages(calls) <= messages
    {
      LogDeferred(calls);
      exit := Finish(AwaitingInput, RunAwaitingInput);
    }

    method LogDeferred(calls: seq<ToolCall>)
      requires Ledgered() && Closed()
      modifies this`messages, this`log, queue
      ensures Ledgered() && Closed()
      ensures log.ledger == Batches(old(log.ledger), BatchRecord(calls, [], [], [], [], [], LimitMessages(calls), AllDeferred))
      ensures old(messages) + LimitMessages(calls) <= messages
    {
      messages := messages + LimitMessages(calls);
      Record(BatchRecord(calls, [], [], [], [], [], LimitMessages(calls), AllDeferred));
      MaterializePending();
    }

    /** One call is counted and journalled; within the limit that is never refused. */
    method CountToolCall(call: ToolCall)
      requires Running() && toolCalls < limits.maxToolCalls
      modifies this`toolCalls, this`log, this`started, machine`toolCalls, machine`refusals, journal
      ensures Running() && toolCalls == old(toolCalls) + 1
      ensures log == WithStart(old(log), ToolCallStarted(call.id, call.name))
    {
      LogStart(failures, log, started, ToolCallStarted(call.id, call.name));
      JournalToolCall(call);
      log := WithStart(log, ToolCallStarted(call.id, call.name));
    }

    method JournalToolCall(call: ToolCall)
      requires Valid() && toolCalls < limits.maxToolCalls
      modifies this`toolCalls, this`started, machine`toolCalls, machine`refusals, journal
      ensures Valid() && toolCalls == old(toolCalls) + 1
      ensures started == old(started) + [ToolCallStarted(call.id, call.name)]
    {
      var e := machine.RecordToolCall();
      assert e.None?;
      toolCalls := toolCalls + 1;
      started := started + [ToolCallStarted(call.id, call.name)];
      journal.Append(ToolCallStarted(call.id, call.name));
    }

    /** A batch was cancelled, ran out of time or failed once too often. */
    method Stop(cancelled: bool, reason: string) returns (exit: Exit)
      requires Valid() && Closed() && machine.status == RunningTool
      modifies this`messages, queue, machine`status, machine`refusals, journal
      ensures Valid() && Good(exit) && exit.Return? && exit.result.Ok?
      ensures machine.status == if cancelled then Cancelled else Failed
      ensures cancelled ==> HoldsOutliving(old(messages), old(queue.items), exit.result.value.messages)
    {
      if cancelled {
        exit := FinishCancelled();
      } else {
        exit := FinishFailed(reason);
      }
    }

    /** The batch in hand goes into the ledger, and the run ends. */
    method StopBatch(ghost b: BatchRecord, cancelled: bool, reason: string) returns (exit: Exit)
      requires Valid() && machine.status == RunningTool && Ledgered() && Accounted(b)
      requires IsInHand(b)
      modifies this`messages, this`log, queue, machine`status, machine`refusals, journal
      ensures Valid() && Ledgered() && Good(exit) && exit.Return? && exit.result.Ok? && log == WithBatch(old(log), b)
      ensures machine.status == if cancelled then Cancelled else Failed
      ensures cancelled ==> HoldsOutliving(old(messages), old(queue.items), exit.result.value.messages)
    {
      Record(b);
      exit := Stop(cancelled, reason);
    }

    /** So many more calls stay within the limit, or there is none to speak of. */
    ghost predicate HasRoom(n: int)
      reads this`toolCalls
    {
      toolCalls + n <= limits.maxToolCalls || limits.maxToolCalls == U32_MAX
    }

    /** The first `k` calls of the batch in hand are started, and none has run. */
    ghost predicate HasStarted(calls: seq<ToolCall>, k: int)
      reads this`log
    {
      |log.started| == k && StartsAre(log.started, calls) && log.ran == [] && log.outcomes == []
    }

    method CountNext(calls: seq<ToolCall>, k: nat)
      requires Running() && k < |calls| && HasStarted(calls, k) && toolCalls < limits.maxToolCalls
      modifies this`toolCalls, this`log, this`started, machine`toolCalls, machine`refusals, journal
      ensures Running() && HasStarted(calls, k + 1) && toolCalls == old(toolCalls) + 1 && log.ledger == old(log.ledger)
    {
      CountToolCall(calls[k]);
    }

    /** The first `k` calls are counted and scheduled, with room for the others, and nothing else has happened. */
    ghost predicate Starting(calls: seq<ToolCall>, world: CallWorld, waiting: seq<Entry>, k: nat,
                             ledger: Ledger, items: seq<StepRequest>)
      requires k <= |calls|
      reads this, machine, journal, queue
    {
      && Running() && HasStarted(calls, k) && HasRoom(|calls| - k)
      && waiting == Entries(world, calls, k) && log.ledger == ledger && queue.items == items
    }

    /** Counts, prepares and schedules one call. */
    method StartCall(calls: seq<ToolCall>, k: nat, world: CallWorld, schedule: ToolSchedule<PendingCall>) returns (exit: Exit)
      requires k < |calls| && Starting(calls, world, schedule.waiting, k, log.ledger, queue.items)
      modifies this`messages, this`toolCalls, this`started, this`log, queue, journal, schedule
      modifies machine`status, machine`refusals, machine`toolCalls
      ensures exit.Return? ==> Good(exit) && Valid() && Ledgered()
      ensures exit.Continue? ==> Starting(calls, world, schedule.waiting, k + 1, old(log.ledger), old(queue.items))
      ensures exit.Return? && exit.result.Ok? ==> LoggedCut(old(log.ledger), log.ledger, calls)
    {
      if toolCalls == U32_MAX { return Return(Err(CounterOverflow)); }
      CountNext(calls, k);
      exit := PrepareTool(calls, k, world, schedule);
    }

    /** A started call is scheduled, unless its preparation was cut off. */
    method PrepareTool(calls: seq<ToolCall>, k: nat, world: CallWorld, schedule: ToolSchedule<PendingCall>) returns (exit: Exit)
      requires Running() && k < |calls| && schedule.waiting == Entries(world, calls, k)
      requires HasStarted(calls, k + 1)
      modifies this`messages, this`log, queue, journal, schedule
      modifies machine`status, machine`refusals
      ensures exit.Return? ==> Good(exit) && Valid() && Ledgered() && exit.result.Ok?
      ensures exit.Return? ==> LoggedCut(old(log.ledger), log.ledger, calls)
      ensures exit.Continue? ==> Running() && queue.items == old(queue.items)
      ensures exit.Continue? ==> log == old(log) && schedule.waiting == Entries(world, calls, k + 1)
    {
      if world.validArguments(calls[k].arguments) && !world.prepare(k).Prepared? {
        ghost var b := BatchRecord(calls, log.started, schedule.waiting, [], [], [], [], CutShort);
        exit := StopBatch(b, world.prepare(k).PrepareCancelled?, ELAPSED);
      } else {
        schedule.Push(PendingCall(k, calls[k]), ClaimsOf(world, k, calls[k]));
        exit := Continue;
      }
    }

    /** Counts, prepares and schedules the calls in order. */
    method StartCalls(calls: seq<ToolCall>, world: CallWorld, schedule: ToolSchedule<PendingCall>) returns (exit: Exit)
      requires Starting(calls, world, schedule.waiting, 0, log.ledger, queue.items)
      modifies this`messages, this`toolCalls, this`started, this`log, queue, journal, schedule
      modifies machine`status, machine`refusals, machine`toolCalls
      ensures exit.Return? ==> Good(exit) && Valid() && Ledgered()
      ensures exit.Continue? ==> Starting(calls, world, schedule.waiting, |calls|, old(log.ledger), old(queue.items))
      ensures exit.Return? && exit.result.Ok? ==> LoggedCut(old(log.ledger), log.ledger, calls)
    {
      exit := Continue;
      for k := 0 to |calls|
        invariant exit.Continue? && Starting(calls, world, schedule.waiting, k, old(log.ledger), old(queue.items))
      {
        exit := StartCall(calls, k, world, schedule);
        if exit.Return? { return; }
      }
    }

    // ----- Running the waves

    method Enqueue(m: Message)
      modifies queue
      ensures queue.items == old(queue.items) + [Report(m)]
    {
      var target := queue.Admit(Report(m), true);
      assert target.Some?;
    }

    /** The answer of one call: a result for the model, or a pause; `limitHit` when identical failures reached the limit. */
    method Take(entry: Entry, outcome: ToolOutcome) returns (limitHit: bool, result: Option<Message>)
      requires Ledgered()
      modifies this`messages, this`failures, this`log, queue
      ensures Ledgered()
      ensures old(BelowFailureLimit()) && !limitHit ==> BelowFailureLimit()
      ensures result.None? <==> IsPause(outcome)
      ensures result.Some? ==> ResultId(result.value) == Some(entry.value.call.id)
      ensures queue.items == old(queue.items) + (if result.Some? then [Report(result.value)] else [])
      ensures log == WithOutcome(old(log), entry, Outcome(Fingerprint(entry.value.call), KindOf(outcome)))
      ensures limitHit <==> outcome.Broken? && FailuresSince(log.total, Fingerprint(entry.value.call)) >= failureLimit
      ensures result == ResultMessage(entry.value.call, outcome, outcome.Broken? && !limitHit)
      ensures messages == if outcome.ContextChanged? then outcome.systems + Retain(old(messages), outcome.retired)
                          else old(messages)
    {
      var call := entry.value.call;
      var o := Outcome(Fingerprint(call), KindOf(outcome));
      LogOutcome(failures, log, started, entry, o);
      failures := Recount(failures, o);
      log := WithOutcome(log, entry, o);
      limitHit := o.kind.Failure? && failures[o.fingerprint] >= failureLimit;
      result := ResultMessage(call, outcome, o.kind.Failure? && failures[o.fingerprint] < failureLimit);
      if outcome.ContextChanged? { messages := outcome.systems + Retain(messages, outcome.retired); }
      if result.Some? { Enqueue(result.value); } else { assert queue.items + [] == queue.items; }
    }

    /** All answers of one wave. */
    method TakeWave(wave: seq<Entry>, world: CallWorld)
      returns (paused: Option<ToolOutcome>, limitHit: bool, ghost tally: Tally)
      requires Ledgered() && BelowFailureLimit()
      modifies this`messages, this`failures, this`log, queue
      ensures Ledgered() && SameBatch(old(log), log) && log.ran == old(log.ran) + wave
      ensures !limitHit ==> BelowFailureLimit()
      ensures Tallies(tally, wave, old(queue.items), queue.items)
      ensures paused.Some? <==> tally.pausers != []
      ensures paused.Some? ==> IsPause(paused.value)
    {
      paused, limitHit, tally := None, false, Tally([], [], []);
      EmptyTally(queue.items);
      assert wave[..0] == [] && log.ran + [] == log.ran;
      for k := 0 to |wave|
        invariant Ledgered() && (!limitHit ==> BelowFailureLimit())
        invariant Tallies(tally, wave[..k], old(queue.items), queue.items)
        invariant SameBatch(old(log), log) && log.ran == old(log.ran) + wave[..k]
        invariant paused.Some? <==> tally.pausers != []
        invariant paused.Some? ==> IsPause(paused.value)
      {
        ghost var before := queue.items;
        WaveGrows(log.ran, old(log.ran), wave, k);
        var outcome := OutcomeOf(world, wave[k].value);
        var hit, result := Take(wave[k], outcome);
        limitHit := limitHit || hit;
        tally := TallyNext(tally, wave, k, result, old(queue.items), before);
        if result.None? && paused.None? { paused := Some(outcome); }
      }
      assert wave[..|wave|] == wave;
    }

    /** Calls that never ran are answered with a deferral. */
    method DeferWaiting(waiting: seq<Entry>) returns (ghost results: seq<Message>)
      modifies queue
      ensures Answering(waiting, results) && queue.items == old(queue.items) + Reports(results)
    {
      results := [];
      assert queue.items + [] == queue.items;
      for k := 0 to |waiting|
        invariant |results| == k && forall i :: 0 <= i < k ==> ResultId(results[i]) == Some(waiting[i].value.call.id)
        invariant queue.items == old(queue.items) + Reports(results)
      {
        var call := waiting[k].value.call;
        var m := ToolMessage(call.id, call.name, DEFERRED_RESULT);
        ReportsSnoc(results, m);
        Enqueue(m);
        results := results + [m];
      }
    }

    /** The schedule is emptied; the record of the batch has every result that waits in the queue. */
    method DeferRest(schedule: ToolSchedule<PendingCall>, calls: seq<ToolCall>,
                     ghost entries: seq<Entry>, ghost t: Tally, ghost start: seq<StepRequest>) returns (ghost b: BatchRecord)
      requires Covers(t, entries, schedule.waiting, start, queue.items) && CallsAre(entries, calls) && LonePause(t.pausers)
      requires HasRun(calls, t.answered, t.pausers) && OutcomesAre(log.outcomes, log.ran)
      modifies queue, schedule
      ensures Accounted(b) && b.calls == calls && IsInHand(b) && multiset(b.results) <= multiset(AllMessages(queue.items))
      ensures b.entries == entries
    {
      ghost var items := queue.items;
      var waiting := schedule.Drain();
      ghost var results := DeferWaiting(waiting);
      b := PausedRecord(calls, entries, log, t, waiting, results, start, items, queue.items);
    }

    method RecordAndMaterialize(ghost b: BatchRecord)
      requires Ledgered() && Accounted(b) && multiset(b.results) <= multiset(AllMessages(queue.items))
      requires IsInHand(b)
      modifies this`messages, this`log, queue
      ensures Ledgered() && log == WithBatch(old(log), b) && multiset(b.results) <= multiset(messages)
    {
      Record(b);
      MaterializePending();
    }

    method FinishAwaiting(paused: ToolOutcome) returns (exit: Exit)
      requires Valid() && Closed() && machine.status == RunningTool && IsPause(paused)
      modifies machine`status, machine`refusals, journal
      ensures Valid() && Good(exit) && exit.Return? && exit.result.Ok? && exit.result.value.messages == messages
      ensures exit.result.value.status == if paused.AskInput? then RunAwaitingInput else RunAwaitingApproval
    {
      if paused.AskInput? {
        exit := Finish(AwaitingInput, RunAwaitingInput);
      } else {
        exit := Finish(AwaitingApproval, RunAwaitingApproval);
      }
    }

    /** A call asked for interaction: what has not run is deferred, and the run pauses. */
    method FinishPaused(paused: ToolOutcome, schedule: ToolSchedule<PendingCall>, calls: seq<ToolCall>,
                        ghost entries: seq<Entry>, ghost t: Tally, ghost start: seq<StepRequest>)
      returns (exit: Exit)
      requires Valid() && Ledgered() && machine.status == RunningTool && IsPause(paused) && LonePause(t.pausers)
      requires Covers(t, entries, schedule.waiting, start, queue.items) && CallsAre(entries, calls)
      requires HasRun(calls, t.answered, t.pausers)
      modifies this`messages, this`log, queue, machine`status, machine`refusals, journal, schedule
      ensures Valid() && Ledgered() && Good(exit) && exit.Return? && exit.result.Ok? && LoggedAs(old(log.ledger), log.ledger, calls, entries)
      ensures exit.result.value.messages == messages
      ensures exit.result.value.status == if paused.AskInput? then RunAwaitingInput else RunAwaitingApproval
      ensures multiset(log.ledger.last.results) <= multiset(messages)
    {
      LogPaused(schedule, calls, entries, t, start);
      exit := FinishAwaiting(paused);
    }

    method LogPaused(schedule: ToolSchedule<PendingCall>, calls: seq<ToolCall>,
                     ghost entries: seq<Entry>, ghost t: Tally, ghost start: seq<StepRequest>)
      requires Ledgered() && LonePause(t.pausers)
      requires Covers(t, entries, schedule.waiting, start, queue.items) && CallsAre(entries, calls)
      requires HasRun(calls, t.answered, t.pausers)
      modifies this`messages, this`log, queue, schedule
      ensures Ledgered() && Closed() && LoggedAs(old(log.ledger), log.ledger, calls, entries)
      ensures multiset(log.ledger.last.results) <= multiset(messages)
    {
      ghost var b := DeferRest(schedule, calls, entries, t, start);
      RecordAndMaterialize(b);
    }

    /** Every call is answered: back to the model. */
    method ReturnToModel(ghost b: BatchRecord)
      requires Running() && Accounted(b) && IsInHand(b)
      modifies this`log, queue, machine`status, machine`refusals, journal
      ensures Ready() && log == WithBatch(old(log), b)
      ensures queue.items == old(queue.items) + [Continuation("tool_results_ready")]
    {
      Record(b);
      Emit(CallingModel);
      var target := queue.Admit(Continuation("tool_results_ready"), true);
      assert target.Some?;
    }

    /** What the answers of a wave mean for the run. */
    method EndWave(paused: Option<ToolOutcome>, limitHit: bool, schedule: ToolSchedule<PendingCall>, calls: seq<ToolCall>,
                   ghost entries: seq<Entry>, ghost t: Tally, ghost start: seq<StepRequest>) returns (exit: Exit)
      requires Valid() && Ledgered() && machine.status == RunningTool && (!limitHit ==> BelowFailureLimit())
      requires if paused.Some? then IsPause(paused.value) && LonePause(t.pausers) else t.pausers == []
      requires Covers(t, entries, schedule.waiting, start, queue.items) && CallsAre(entries, calls)
      requires HasRun(calls, t.answered, t.pausers)
      modifies this`messages, this`log, queue, machine`status, machine`refusals, journal, schedule
      ensures Good(exit)
      ensures exit.Return? ==> Valid() && Ledgered() && exit.result.Ok? && LoggedAs(old(log.ledger), log.ledger, calls, entries)
      ensures exit.Continue? ==> Running() && paused.None? && schedule.waiting == old(schedule.waiting)
                                 && queue.items == old(queue.items) && log == old(log)
    {
      if paused.Some? {
        exit := FinishPaused(paused.value, schedule, calls, entries, t, start);
      } else if limitHit {
        ghost var b := BatchRecord(calls, log.started, entries, log.ran, log.outcomes, t.answered, t.results, RepeatedFailure);
        exit := StopBatch(b, false, REPEATED);
      } else {
        exit := Continue;
      }
    }

    /** The batch in hand: all its calls are started, and those that ran were answered or paused. */
    ghost predicate HasRun(calls: seq<ToolCall>, answered: seq<Entry>, pausers: seq<Entry>)
      reads this`log
    {
      |log.started| == |calls| && StartsAre(log.started, calls)
      && multiset(log.ran) == multiset(answered) + multiset(pausers)
    }

    /** Between waves: nobody has paused, and what is not answered is still waiting. */
    ghost predicate Between(calls: seq<ToolCall>, t: Tally, entries: seq<Entry>, waiting: seq<Entry>,
                            start: seq<StepRequest>, ledger: Ledger)
      reads this, machine, journal, queue
    {
      && Running() && HasRun(calls, t.answered, []) && log.ledger == ledger
      && Progress(t, entries, waiting, start, queue.items)
    }

    /** The answers of a wave that came back; the loop goes on when nothing paused or hit the limit. */
    method AnswerWave(calls: seq<ToolCall>, world: CallWorld, wave: seq<Entry>, schedule: ToolSchedule<PendingCall>,
                      ghost entries: seq<Entry>, ghost so: Tally, ghost start: seq<StepRequest>, ghost waiting: seq<Entry>)
      returns (exit: Exit, ghost next: Tally)
      requires CallsAre(entries, calls) && Between(calls, so, entries, waiting, start, log.ledger)
      requires SplitInto(waiting, wave, schedule.waiting)
      modifies this`messages, this`failures, this`log, queue, machine`status, machine`refusals, journal, schedule
      ensures Good(exit)
      ensures exit.Return? ==> Valid() && Ledgered() && exit.result.Ok? && LoggedAs(old(log.ledger), log.ledger, calls, entries)
      ensures exit.Continue? ==> Between(calls, next, entries, schedule.waiting, start, old(log.ledger))
      ensures exit.Continue? ==> schedule.waiting == old(schedule.waiting)
    {
      var paused, limitHit;
      paused, limitHit, next := SettleWave(calls, world, wave, entries, so, start, waiting, schedule.waiting);
      assert Valid() && machine.status == RunningTool;
      exit := EndWave(paused, limitHit, schedule, calls, entries, next, start);
    }

    /** The answers of a wave, joined with those before it. */
    method SettleWave(calls: seq<ToolCall>, world: CallWorld, wave: seq<Entry>, ghost entries: seq<Entry>, ghost so: Tally,
                      ghost start: seq<StepRequest>, ghost waiting: seq<Entry>, ghost rest: seq<Entry>)
      returns (paused: Option<ToolOutcome>, limitHit: bool, ghost next: Tally)
      requires Ledgered() && BelowFailureLimit() && HasRun(calls, so.answered, [])
      requires Progress(so, entries, waiting, start, queue.items) && SplitInto(waiting, wave, rest)
      modifies this`messages, this`failures, this`log, queue
      ensures Ledgered() && (!limitHit ==> BelowFailureLimit()) && log.ledger == old(log.ledger)
      ensures HasRun(calls, next.answered, next.pausers) && Covers(next, entries, rest, start, queue.items)
      ensures if paused.Some? then IsPause(paused.value) && LonePause(next.pausers) else next.pausers == []
      ensures paused.None? ==> Progress(next, entries, rest, start, queue.items)
    {
      ghost var items, ran := queue.items, log.ran;
      ghost var tally;
      paused, limitHit, tally := TakeWave(wave, world);
      next := WaveEnds(so, tally, entries, waiting, wave, rest, start, items, queue.items, ran);
    }

    /** One wave; the loop goes on when it was answered in full. */
    method RunWave(calls: seq<ToolCall>, world: CallWorld, n: nat, schedule: ToolSchedule<PendingCall>,
                   ghost entries: seq<Entry>, ghost so: Tally, ghost start: seq<StepRequest>)
      returns (exit: Exit, ghost next: Tally)
      requires schedule.Valid() && schedule.waiting != [] && CallsAre(entries, calls)
      requires Between(calls, so, entries, schedule.waiting, start, log.ledger)
      modifies this`messages, this`failures, this`log, queue, machine`status, machine`refusals, journal, schedule
      ensures Good(exit)
      ensures exit.Return? ==> Valid() && Ledgered() && exit.result.Ok? && LoggedAs(old(log.ledger), log.ledger, calls, entries)
      ensures exit.Continue? ==> Between(calls, next, entries, schedule.waiting, start, old(log.ledger))
      ensures exit.Continue? ==> schedule.Valid() && |schedule.waiting| < |old(schedule.waiting)|
    {
      ghost var waiting := schedule.waiting;
      WaveSplits(waiting);
      var wave := schedule.TakeReadyWave();
      if !world.fate(n).WaveFinished? {
        next := so;
        ghost var b := BatchRecord(calls, log.started, entries, log.ran, log.outcomes, so.answered, so.results, CutShort);
        exit := StopBatch(b, world.fate(n).WaveCancelled?, ELAPSED);
      } else {
        exit, next := AnswerWave(calls, world, wave, schedule, entries, so, start, waiting);
      }
    }

    /** The wave loop. Back at the model, each call has one result, and the results wait in the queue with a continuation. */
    method RunWaves(calls: seq<ToolCall>, world: CallWorld, schedule: ToolSchedule<PendingCall>) returns (exit: Exit)
      requires Running() && schedule.Valid() && CallsAre(schedule.waiting, calls) && HasStarted(calls, |calls|)
      modifies this`messages, this`failures, this`log, queue, machine`status, machine`refusals, journal, schedule
      ensures Good(exit) && LoggedAs(old(log.ledger), log.ledger, calls, old(schedule.waiting))
      ensures exit.Return? ==> Valid() && Ledgered() && exit.result.Ok?
      ensures exit.Continue? ==> Ready() && Returned(log.ledger.last, old(queue.items), queue.items)
    {
      ghost var entries, start := schedule.waiting, queue.items;
      ghost var so := Tally([], [], []);
      EmptyTally(queue.items);
      var n := 0;
      while schedule.waiting != []
        invariant schedule.Valid() && Between(calls, so, entries, schedule.waiting, start, old(log.ledger))
        decreases |schedule.waiting|
      {
        exit, so := RunWave(calls, world, n, schedule, entries, so, start);
        if exit.Return? { return; }
        n := n + 1;
      }
      ReturnToModel(BatchRecord(calls, log.started, entries, log.ran, log.outcomes, so.answered, so.results, BackToModel));
      exit := Continue;
    }

    /** The tool phase of one response: every well-formed batch is in the ledger afterwards, and the ledger is accounted for. */
    method Propose(heard: Heard, world: CallWorld) returns (exit: Exit)
      requires Ready() && heard.slots != []
      modifies this`messages, this`toolCalls, this`started, this`failures, this`log, queue, journal
      modifies machine`status, machine`refusals, machine`toolCalls
      ensures Good(exit) && Ledgered()
      ensures exit.Continue? || exit.result.Ok? ==>
                Complete(heard.slots).Ok? && Logged(old(log.ledger), log.ledger, Complete(heard.slots).value)
                && AnnouncedAlone(world, log.ledger.last)
      ensures exit.Continue? ==> Ready() && Returned(log.ledger.last, old(queue.items), queue.items)
      ensures exit.Return? && exit.result.Ok? ==> Valid()
    {
      var parsed := Complete(heard.slots);
      if parsed.Err? { return Return(Err(InvalidToolCall(parsed.error))); }
      var calls := parsed.value;
      messages := messages + [AssistantCalls(heard.reply, calls)];
      if Cap(toolCalls + Cap(|calls|, U32_MAX), U32_MAX) > limits.maxToolCalls {
        exit := DeferBatch(calls);
        return;
      }
      exit := RunBatch(calls, world);
    }

    /** A batch within the limit: counted, scheduled and run. */
    method RunBatch(calls: seq<ToolCall>, world: CallWorld) returns (exit: Exit)
      requires Ready() && Cap(toolCalls + Cap(|calls|, U32_MAX), U32_MAX) <= limits.maxToolCalls
      modifies this`messages, this`toolCalls, this`started, this`failures, this`log, queue, journal
      modifies machine`status, machine`refusals, machine`toolCalls
      ensures Good(exit) && Ledgered()
      ensures exit.Continue? || exit.result.Ok? ==> Logged(old(log.ledger), log.ledger, calls) && AnnouncedAlone(world, log.ledger.last)
      ensures exit.Continue? ==> Ready() && Returned(log.ledger.last, old(queue.items), queue.items)
      ensures exit.Return? && exit.result.Ok? ==> Valid()
    {
      Emit(RunningTool);
      exit := StartAndRun(calls, world);
    }

    method StartAndRun(calls: seq<ToolCall>, world: CallWorld) returns (exit: Exit)
      requires Starting(calls, world, [], 0, log.ledger, queue.items)
      modifies this`messages, this`toolCalls, this`started, this`failures, this`log, queue, journal
      modifies machine`status, machine`refusals, machine`toolCalls
      ensures Good(exit) && Ledgered()
      ensures exit.Continue? || exit.result.Ok? ==> Logged(old(log.ledger), log.ledger, calls) && AnnouncedAlone(world, log.ledger.last)
      ensures exit.Continue? ==> Ready() && Returned(log.ledger.last, old(queue.items), queue.items)
      ensures exit.Return? && exit.result.Ok? ==> Valid()
    {
      var schedule := new ToolSchedule<PendingCall>();
      exit := StartCalls(calls, world, schedule);
      if exit.Continue? {
        EntriesAre(world, calls, |calls|);
        exit := RunWaves(calls, world, schedule);
        AnnouncedPausesAlone(world, log.ledger.last);
      }
    }

    // ----- The outer loop

    /** What holds of a run however it ends. */
    ghost predicate Safe()
      reads this, machine
    {
      machine.refusals == 0 && CapBounds() && Dispatched() && Ledgered()
    }

    /** The ledger after a response: a proposed batch is in it, with announced pauses alone, and otherwise it is as before. */
    ghost predicate Entered(heard: Heard, world: CallWorld, before: Ledger, capBefore: nat)
      reads this`log
    {
      if IsProposal(heard, capBefore)
      then Complete(heard.slots).Ok? && Logged(before, log.ledger, Complete(heard.slots).value)
           && AnnouncedAlone(world, log.ledger.last)
      else log.ledger == before
    }

    /** The stream and its verdict, after the dispatch. */
    method Respond(world: CallWorld) returns (exit: Exit)
      requires Ready()
      modifies this`started, this`messages, this`text, this`inputTokens, this`outputTokens, this`toolCalls, this`cap
      modifies this`streamRetries, this`emptyRetries, this`incompleteRetries, this`failures, this`log
      modifies queue, journal, machine`status, machine`refusals, machine`totalTokens, machine`toolCalls
      ensures Good(exit) && Safe()
      ensures exit.Continue? ==> Ready()
      ensures exit.Return? && exit.result.Ok? ==> Valid()
      ensures exit.Continue? || exit.result.Ok? ==> Entered(HeardIn(world), world, old(log.ledger), old(cap))
    {
      var heard;
      exit, heard := Listen(world);
      if exit.Return? { return; }
      exit := Decide(heard, world);
    }

    /** The verdict on a response, and its tool phase. */
    method Decide(heard: Heard, world: CallWorld) returns (exit: Exit)
      requires Ready() && !heard.ending.StreamCancelled?
      modifies this`started, this`messages, this`text, this`toolCalls, this`cap
      modifies this`streamRetries, this`emptyRetries, this`incompleteRetries, this`failures, this`log
      modifies queue, journal, machine`status, machine`refusals, machine`toolCalls
      ensures Good(exit) && Safe()
      ensures exit.Continue? ==> Ready()
      ensures exit.Return? && exit.result.Ok? ==> Valid()
      ensures exit.Continue? || exit.result.Ok? ==> Entered(heard, world, old(log.ledger), old(cap))
    {
      var proceed;
      exit, proceed := Judge(heard, world);
      assert Ledgered() && BelowFailureLimit();
      if proceed { exit := Propose(heard, world); }
    }

    /** The head of the loop and the call of the model. */
    method Call(world: CallWorld) returns (exit: Exit)
      requires AtHead()
      modifies this`messages, this`media, this`reminded, this`modelCalls, this`dispatches, queue, journal
      modifies machine`status, machine`refusals, machine`modelCalls, machine`costMicros
      ensures Good(exit) && machine.refusals == 0 && Dispatched()
      ensures exit.Continue? ==> AtHead() && modelCalls == old(modelCalls) + 1
      ensures exit.Return? && exit.result.Ok? ==> Valid()
    {
      exit := Head(world);
      if exit.Return? { return; }
      exit := Dispatch(world);
    }

    /** One iteration of the loop: it ends the run, or spends one model call and is at the head again. */
    method Turn(world: CallWorld) returns (exit: Exit)
      requires Ready()
      modifies this, queue, journal, machine
      ensures Good(exit) && Safe()
      ensures exit.Continue? ==> Ready() && modelCalls == old(modelCalls) + 1
      ensures exit.Continue? ==> Entered(HeardIn(world), world, old(log.ledger), old(cap))
      ensures exit.Return? && exit.result.Ok? ==> Valid()
      ensures exit.Return? && exit.result.Ok? ==>
                log.ledger == old(log.ledger) || Entered(HeardIn(world), world, old(log.ledger), old(cap))
    {
      exit := Call(world);
      assert Ledgered() && BelowFailureLimit() && CapBounds();
      if exit.Continue? { exit := Respond(world); }
    }

    /** The loop; it ends because every iteration spends a model call. */
    method Loop(worlds: nat -> CallWorld) returns (r: Result<RunResult, RunError>)
      requires Ready()
      modifies this, queue, journal, machine
      ensures Good(Return(r)) && Safe()
      ensures r.Ok? ==> StartedCalls(r.value.ops) == LedgerStarts(log.ledger) && log.total == LedgerOutcomes(log.ledger)
    {
      while true
        invariant Ready()
        decreases limits.maxModelCalls - modelCalls
      {
        var exit := Turn(worlds(modelCalls));
        if exit.Return? {
          assert LedgerStarts(log.ledger) + [] == LedgerStarts(log.ledger);
          assert LedgerOutcomes(log.ledger) + [] == LedgerOutcomes(log.ledger);
          return exit.result;
        }
      }
    }
  }

  /** A floating-point number. */
  datatype Float = NotFinite | Finite(value: real)

  predicate GoodTemperature(t: Float) { t.Finite? && 0.0 <= t.value <= 2.0 }

  /**
   A whole run, whatever the provider, the tools and the outside do. It terminates,
   refuses no transition and no call count, and a result replays to its own counters,
   passes the checkpoint check and keeps every limit.
   */
  method Run(limits: Limits, maxRetries: nat, failureLimit: nat, temperature: Float, request: ModelRequest,
             fixedCap: bool, worlds: nat -> CallWorld)
    returns (run: TurnRun, r: Result<RunResult, RunError>)
    requires ValidLimits(limits)
    ensures run.limits == limits && run.maxRetries == maxRetries && run.failureLimit == failureLimit
    ensures run.initialCap == request.maxOutputTokens && run.fixedCap == fixedCap
    ensures !GoodTemperature(temperature) <==> r == Err(InvalidRequest)
    ensures run.Safe()
    ensures r.Ok? ==> SelfConsistent(r.value) && WithinLimits(r.value, limits) && EndsAs(r.value.status, run.machine.status)
    ensures r.Ok? && limits.maxTotalTokens < U64_MAX ==> r.value.inputTokens + r.value.outputTokens <= limits.maxTotalTokens
    ensures r.Ok? ==> Replay(r.value.ops).value.status == Some(run.machine.status)
    ensures r.Ok? ==> StartedCalls(r.value.ops) == LedgerStarts(run.log.ledger)
    ensures r.Ok? ==> run.log.total == LedgerOutcomes(run.log.ledger)
    ensures r.Ok? ==> Decode(Versioned(Checkpoint(CHECKPOINT_VERSION, r.value))).Ok?
    ensures r == Err(CounterOverflow) ==> limits.maxToolCalls == U32_MAX
  {
    run := new TurnRun(limits, maxRetries, failureLimit, request, fixedCap);
    if !GoodTemperature(temperature) { return run, Err(InvalidRequest); }
    run.Begin();
    r := run.Loop(worlds);
  }

  /** A world in which a follow-up arrives and the dispatch is then cancelled. */
  ghost predicate CancelsBehindFollowUp(world: CallWorld) {
    world.arriving == [FOLLOW_UP] && !world.cancelled && world.replies(0) == Interrupted(ByCancellation)
  }

  /** Of two drivers the second waits. */
  lemma SecondWaits(first: StepRequest, second: StepRequest)
    requires first.state.Pending? && !first.mergeable && second.state.Pending? && !second.mergeable
    ensures var due := [first, second];
            Live(due) == due && Waiting(due) == [second] && Taken(due) == Messages(first)
  {
    var due, rest := [first, second], [second];
    assert due[1..] == rest && rest[1..] == [];
    assert Live(rest) == rest && Live(due) == due;
    assert DriverIndex(due) == 0 && Others(due) == rest;
    assert Drivers(rest) == rest && Mergeable(rest) == [];
    assert Messages(first) + [] == Messages(first);
  }

  /** The queue keeps the follow-up behind the opening step, which is what the history gets. */
  lemma FollowUpWaits(items: seq<StepRequest>, world: CallWorld)
    requires |items| == 1 && items[0].state.Pending? && !items[0].mergeable && CancelsBehindFollowUp(world)
    ensures var due := items + Accepted(world.arriving, |world.arriving|);
            Live(due) != [] && Waiting(due) == [FOLLOW_UP] && Taken(due) == Messages(items[0])
  {
    SecondWaits(items[0], FOLLOW_UP);
    assert Accepted(world.arriving, 1) == [FOLLOW_UP];
    assert items + [FOLLOW_UP] == [items[0], FOLLOW_UP];
  }

  lemma FollowUpOutlives(before: seq<Message>)
    ensures !HoldsOutliving(before, [FOLLOW_UP], before)
  {
    assert AllMessages(KeepsTurn([FOLLOW_UP])) == FOLLOW_UP.messages;
    NothingOutlives(before, [FOLLOW_UP]);
  }

  /** The head of the loop leaves the follow-up in the queue, and the cancelled dispatch drops it. */
  method CancelFirstCall(run: TurnRun, ghost request: seq<Message>, world: CallWorld) returns (exit: Exit)
    requires run.AtHead() && run.modelCalls == 0 && Opens(request, run.messages, run.queue.items)
    requires run.limits.maxModelCalls > 0 && CancelsBehindFollowUp(world)
    modifies run, run.queue, run.journal, run.machine
    ensures exit.Return? && exit.result.Ok? && exit.result.value.status == RunCancelled
    ensures exit.result.value.messages == Compact(request) && run.queue.items == [FOLLOW_UP]
  {
    FollowUpWaits(run.queue.items, world);
    assert 0 < ConvergenceThreshold(run.limits.maxModelCalls);
    exit := run.Head(world);
    assert exit.Continue?;
    assert run.queue.items == [FOLLOW_UP] && run.messages == request;
    exit := run.Dispatch(world);
  }

  /**
   The follow-up of a user is lost when the first dispatch is cancelled: whatever the request,
   the head of the loop leaves it in the queue, and the result holds the request's history alone.
   */
  method FollowUpIsLost(limits: Limits, maxRetries: nat, failureLimit: nat, request: ModelRequest, fixedCap: bool, world: CallWorld)
    returns (exit: Exit)
    requires ValidLimits(limits) && limits.maxModelCalls > 0 && CancelsBehindFollowUp(world)
    ensures exit.Return? && exit.result.Ok? && exit.result.value.status == RunCancelled
    ensures exit.result.value.messages == Compact(request.messages)
    ensures !HoldsOutliving(Compact(request.messages), [FOLLOW_UP], exit.result.value.messages)
  {
    var run := new TurnRun(limits, maxRetries, failureLimit, request, fixedCap);
    run.Begin();
    exit := CancelFirstCall(run, request.messages, world);
    FollowUpOutlives(Compact(request.messages));
  }

  /** What was in the queue is in the history or still in the queue, and no tool result is in the queue. */
  ghost predicate StepTaken(messages: seq<Message>, items: seq<StepRequest>, now: seq<Message>, left: seq<StepRequest>) {
    && multiset(now) + multiset(AllMessages(left)) == multiset(messages) + multiset(AllMessages(items))
    && forall m :: Report(m) !in left
  }

  /** The history and the queue at the start: the last message is the one waiting step. */
  ghost predicate Opens(request: seq<Message>, messages: seq<Message>, items: seq<StepRequest>) {
    |items| == 1 && items[0].state.Pending? && !items[0].mergeable && messages + Messages(items[0]) == request
  }

  /** What the next batch leaves in the queue. */
  function Waiting(items: seq<StepRequest>): seq<StepRequest> {
    if Live(items) == [] then [] else Drivers(Others(Live(items)))
  }

  /** The messages of the next batch. */
  function Taken(items: seq<StepRequest>): seq<Message> {
    var live := Live(items);
    if live == [] then [] else BatchMessages(Batch(live[DriverIndex(live)], Mergeable(Others(live))))
  }

  lemma MoveMessages(messages: seq<Message>, taken: seq<Message>, left: seq<Message>, all: seq<Message>)
    requires multiset(all) == multiset(taken) + multiset(left)
    ensures multiset(messages + taken) + multiset(left) == multiset(messages) + multiset(all)
  {
  }

  lemma BatchTakesResults(items: seq<StepRequest>)
    ensures var live := Live(items);
            && multiset(AllMessages(items)) == (if live == [] then multiset{} else
                 multiset(BatchMessages(Batch(live[DriverIndex(live)], Mergeable(Others(live)))))
                 + multiset(AllMessages(Drivers(Others(live)))))
            && (live != [] ==> forall m :: Report(m) !in Drivers(Others(live)))
  {
    var live := Live(items);
    LiveKeepsMessages(items);
    if live != [] {
      BatchConserves(live);
      DriversAreDrivers(Others(live));
    }
  }

  /** On return to the model the results of the batch wait in the queue, in front of a continuation. */
  ghost predicate Returned(b: BatchRecord, before: seq<StepRequest>, now: seq<StepRequest>) {
    b.verdict.BackToModel? && now == before + Reports(b.results) + [Continuation("tool_results_ready")]
  }

  lemma MoreRoom(n: nat, calls: nat, each: nat)
    requires n <= calls * each
    ensures n <= (calls + 1) * each
  {
    assert (calls + 1) * each == calls * each + each;
  }

  lemma SaturatingSum(a: nat, b: nat, c: nat, d: nat)
    ensures Cap(Cap(Cap(a + b, U64_MAX) + c, U64_MAX) + d, U64_MAX) == Cap(Cap(a + c, U64_MAX) + Cap(b + d, U64_MAX), U64_MAX)
    ensures Cap(Cap(Cap(a + b, U64_MAX) + c, U64_MAX) + d, U64_MAX) == Cap(Cap(a + b + c, U64_MAX) + d, U64_MAX)
  {
  }

  lemma OneMore(calls: nat, each: nat)
    ensures (calls + 1) * each == calls * each + each
  {
  }
}
