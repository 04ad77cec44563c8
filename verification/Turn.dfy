/**
 The turn state machine, the operation journal and the checkpoint check
 (crates/agent-core/src/lib.rs). Machine integers are explicit: additions saturate
 where the source saturates.
 */
module Turn {
  import opened Wrappers
  import opened History

  const U32_MAX := 0xFFFF_FFFF
  const U64_MAX := 0xFFFF_FFFF_FFFF_FFFF

  function Cap(n: nat, max: nat): (r: nat)
    ensures r <= max && r <= n
  {
    if n <= max then n else max
  }

  /** Saturating once at the end is the same as saturating at every step. */
  lemma CapTwice(a: nat, b: nat, max: nat)
    ensures Cap(Cap(a, max) + b, max) == Cap(a + b, max)
  {
  }

  // ----- Status

  datatype Status = Idle | PreparingContext | CallingModel | AwaitingInput | AwaitingApproval | RunningTool
                  | Completed | Failed | Cancelled

  predicate Legal(from: Status, next: Status) {
    match next
    case Cancelled => !from.Completed? && !from.Failed? && !from.Cancelled?
    case PreparingContext => from.Idle?
    case CallingModel => from.PreparingContext? || from.AwaitingInput? || from.AwaitingApproval? || from.RunningTool?
    case Failed => from.PreparingContext? || from.CallingModel? || from.AwaitingInput? || from.AwaitingApproval?
                   || from.RunningTool?
    case AwaitingInput => from.CallingModel? || from.RunningTool?
    case AwaitingApproval => from.CallingModel? || from.RunningTool?
    case RunningTool => from.CallingModel? || from.AwaitingInput? || from.AwaitingApproval?
    case Completed => from.CallingModel?
    case Idle => false
  }

  datatype Limits = Limits(maxModelCalls: nat, maxToolCalls: nat, maxCostMicros: nat, maxTotalTokens: nat)

  predicate ValidLimits(l: Limits) {
    l.maxModelCalls <= U32_MAX && l.maxToolCalls <= U32_MAX && l.maxCostMicros <= U64_MAX && l.maxTotalTokens <= U64_MAX
  }

  datatype TurnError = InvalidTransition(from: Status, next: Status) | LimitExceeded(what: string)

  class TurnMachine {
    const limits: Limits
    var status: Status
    var modelCalls: nat
    var toolCalls: nat
    var costMicros: nat
    var totalTokens: nat
    ghost var refusals: nat

    constructor (limits: Limits)
      ensures this.limits == limits && status == Idle
      ensures modelCalls == 0 && toolCalls == 0 && costMicros == 0 && totalTokens == 0 && refusals == 0
    {
      this.limits := limits;
      status := Idle;
      modelCalls, toolCalls, costMicros, totalTokens := 0, 0, 0, 0;
      refusals := 0;
    }

    /** Counts first and checks afterwards; counting past the type's maximum panics. */
    method RecordModelCall(cost: nat) returns (e: Option<TurnError>)
      requires modelCalls < U32_MAX
      modifies this`modelCalls, this`costMicros, this`refusals
      ensures refusals == old(refusals) + (if e.Some? then 1 else 0)
      ensures modelCalls == old(modelCalls) + 1 && costMicros == Cap(old(costMicros) + cost, U64_MAX)
      ensures e.None? <==> modelCalls <= limits.maxModelCalls && costMicros <= limits.maxCostMicros
    {
      modelCalls := modelCalls + 1;
      costMicros := Cap(costMicros + cost, U64_MAX);
      e := None;
      if modelCalls > limits.maxModelCalls {
        e := Some(LimitExceeded("model_calls"));
      } else if costMicros > limits.maxCostMicros {
        e := Some(LimitExceeded("cost"));
      }
      refusals := refusals + (if e.Some? then 1 else 0);
    }

    method RecordToolCall() returns (e: Option<TurnError>)
      requires toolCalls < U32_MAX
      modifies this`toolCalls, this`refusals
      ensures refusals == old(refusals) + (if e.Some? then 1 else 0)
      ensures toolCalls == old(toolCalls) + 1
      ensures e.None? <==> toolCalls <= limits.maxToolCalls
    {
      toolCalls := toolCalls + 1;
      e := if toolCalls > limits.maxToolCalls then Some(LimitExceeded("tool_calls")) else None;
      refusals := refusals + (if e.Some? then 1 else 0);
    }

    method RecordUsage(input: nat, output: nat) returns (e: Option<TurnError>)
      modifies this`totalTokens
      ensures totalTokens == Cap(Cap(old(totalTokens) + input, U64_MAX) + output, U64_MAX)
      ensures e.None? <==> totalTokens <= limits.maxTotalTokens
      ensures e.Some? ==> e.value == LimitExceeded("tokens")
    {
      totalTokens := Cap(Cap(totalTokens + input, U64_MAX) + output, U64_MAX);
      if totalTokens > limits.maxTotalTokens { return Some(LimitExceeded("tokens")); }
      return None;
    }

    method Transition(next: Status) returns (e: Option<TurnError>)
      modifies this`status, this`refusals
      ensures refusals == old(refusals) + (if e.Some? then 1 else 0)
      ensures e.None? <==> Legal(old(status), next)
      ensures status == if Legal(old(status), next) then next else old(status)
    {
      if !Legal(status, next) {
        refusals := refusals + 1;
        return Some(InvalidTransition(status, next));
      }
      status := next;
      return None;
    }
  }

  // ----- Operations and their projection

  datatype Operation =
    | StatusChanged(status: Status)
    | ModelCallStarted
    | TextAppended(text: string)
    | UsageAdded(input: nat, output: nat)
    | ToolCallStarted(callId: string, tool: string)

  const OP_VERSION := 1

  datatype Op = Op(version: nat, sequence: nat, operation: Operation)

  datatype Projection = Projection(lastSequence: nat, status: Option<Status>, assistantText: string,
                                   inputTokens: nat, outputTokens: nat, modelCalls: nat, toolCalls: nat)

  const EMPTY := Projection(0, None, "", 0, 0, 0, 0)

  datatype OpError = UnsupportedVersion(version: nat) | SequenceGap(expected: nat, received: nat)

  function Effect(p: Projection, operation: Operation): Projection {
    match operation
    case StatusChanged(status) => p.(status := Some(status))
    case ModelCallStarted => p.(modelCalls := Cap(p.modelCalls + 1, U32_MAX))
    case TextAppended(text) => p.(assistantText := p.assistantText + text)
    case UsageAdded(input, output) =>
      p.(inputTokens := Cap(p.inputTokens + input, U64_MAX), outputTokens := Cap(p.outputTokens + output, U64_MAX))
    case ToolCallStarted(_, _) => p.(toolCalls := Cap(p.toolCalls + 1, U32_MAX))
  }

  function ApplyOp(p: Projection, op: Op): Result<Projection, OpError> {
    var expected := Cap(p.lastSequence + 1, U64_MAX);
    if op.version != OP_VERSION then Err(UnsupportedVersion(op.version))
    else if op.sequence != expected then Err(SequenceGap(expected, op.sequence))
    else Ok(Effect(p, op.operation).(lastSequence := op.sequence))
  }

  function ReplayFrom(p: Projection, ops: seq<Op>): Result<Projection, OpError>
    decreases ops
  {
    if ops == [] then Ok(p)
    else match ApplyOp(p, ops[0]) case Err(e) => Err(e) case Ok(q) => ReplayFrom(q, ops[1..])
  }

  function Replay(ops: seq<Op>): Result<Projection, OpError> { ReplayFrom(EMPTY, ops) }

  method ReplayAgentOps(operations: seq<Op>) returns (r: Result<Projection, OpError>)
    ensures r == Replay(operations)
  {
    var projection := EMPTY;
    for k := 0 to |operations|
      invariant ReplayFrom(projection, operations[k..]) == Replay(operations)
    {
      assert operations[k..][1..] == operations[k + 1..];
      var next := ApplyOp(projection, operations[k]);
      if next.Err? { return Err(next.error); }
      projection := next.value;
    }
    return Ok(projection);
  }

  lemma {:induction false} ReplaySnoc(p: Projection, ops: seq<Op>, op: Op)
    ensures ReplayFrom(p, ops + [op]) ==
            match ReplayFrom(p, ops) case Err(e) => Err(e) case Ok(q) => ApplyOp(q, op)
    decreases ops
  {
    if ops == [] {
      assert [op][1..] == [] && ops + [op] == [op];
      var first := ApplyOp(p, op);
      if first.Ok? { assert ReplayFrom(first.value, []) == Ok(first.value); }
    } else {
      assert (ops + [op])[1..] == ops[1..] + [op];
      var next := ApplyOp(p, ops[0]);
      if next.Ok? { ReplaySnoc(next.value, ops[1..], op); }
    }
  }

  predicate WellNumbered(ops: seq<Op>, from: nat) {
    forall i :: 0 <= i < |ops| ==> ops[i].version == OP_VERSION && ops[i].sequence == Cap(from + i + 1, U64_MAX)
  }

  /** Replay succeeds exactly on the current version numbered without a gap. */
  lemma {:induction false} ReplaySucceedsExactly(p: Projection, ops: seq<Op>)
    requires p.lastSequence <= U64_MAX
    ensures ReplayFrom(p, ops).Ok? <==> WellNumbered(ops, p.lastSequence)
    decreases ops
  {
    if ops != [] {
      var next := ApplyOp(p, ops[0]);
      if next.Ok? {
        ReplaySucceedsExactly(next.value, ops[1..]);
        if WellNumbered(ops, p.lastSequence) {
          forall i | 0 <= i < |ops[1..]|
            ensures ops[1..][i].version == OP_VERSION
            ensures ops[1..][i].sequence == Cap(next.value.lastSequence + i + 1, U64_MAX)
          {
            assert ops[1..][i] == ops[i + 1];
            CapTwice(p.lastSequence + 1, i + 1, U64_MAX);
          }
        }
        if WellNumbered(ops[1..], next.value.lastSequence) {
          forall i | 0 <= i < |ops|
            ensures ops[i].version == OP_VERSION && ops[i].sequence == Cap(p.lastSequence + i + 1, U64_MAX)
          {
            if i > 0 {
              assert ops[i] == ops[1..][i - 1];
              CapTwice(p.lastSequence + 1, i, U64_MAX);
            }
          }
        }
      } else {
        assert !(ops[0].version == OP_VERSION && ops[0].sequence == Cap(p.lastSequence + 0 + 1, U64_MAX));
      }
    }
  }

  // ----- What a replay adds up to

  function Text(ops: seq<Op>): string {
    if ops == [] then "" else (if ops[0].operation.TextAppended? then ops[0].operation.text else "") + Text(ops[1..])
  }

  function Count(ops: seq<Op>, model: bool): nat {
    if ops == [] then 0
    else (if (model && ops[0].operation.ModelCallStarted?) || (!model && ops[0].operation.ToolCallStarted?) then 1 else 0)
         + Count(ops[1..], model)
  }

  function Tokens(ops: seq<Op>, input: bool): nat {
    if ops == [] then 0
    else (if ops[0].operation.UsageAdded? then (if input then ops[0].operation.input else ops[0].operation.output) else 0)
         + Tokens(ops[1..], input)
  }

  /** A replay is the totals of the list: all text in order, all tokens, all calls. */
  lemma {:induction false} ReplayTotals(p: Projection, ops: seq<Op>)
    requires ReplayFrom(p, ops).Ok?
    requires p.modelCalls <= U32_MAX && p.toolCalls <= U32_MAX && p.inputTokens <= U64_MAX && p.outputTokens <= U64_MAX
    ensures var q := ReplayFrom(p, ops).value;
            && q.assistantText == p.assistantText + Text(ops)
            && q.inputTokens == Cap(p.inputTokens + Tokens(ops, true), U64_MAX)
            && q.outputTokens == Cap(p.outputTokens + Tokens(ops, false), U64_MAX)
            && q.modelCalls == Cap(p.modelCalls + Count(ops, true), U32_MAX)
            && q.toolCalls == Cap(p.toolCalls + Count(ops, false), U32_MAX)
    decreases ops
  {
    if ops == [] {
      assert p.assistantText + "" == p.assistantText;
    } else {
      var next := ApplyOp(p, ops[0]).value;
      ReplayTotals(next, ops[1..]);
      var added := if ops[0].operation.TextAppended? then ops[0].operation.text else "";
      assert next.assistantText == p.assistantText + added;
      assert p.assistantText + added + Text(ops[1..]) == p.assistantText + (added + Text(ops[1..]));
    }
  }

  // ----- The journal

  /** The tool calls a list of operations starts, in order. */
  function StartedCalls(ops: seq<Op>): seq<Operation> {
    if ops == [] then []
    else
      var n := |ops| - 1;
      StartedCalls(ops[..n]) + (if ops[n].operation.ToolCallStarted? then [ops[n].operation] else [])
  }

  /** The projection is the replay of the operations, and `started` are their tool calls. */
  ghost predicate Journals(operations: seq<Op>, projection: Projection, started: seq<Operation>) {
    && Replay(operations) == Ok(projection) && projection.lastSequence <= U64_MAX
    && started == StartedCalls(operations)
  }

  class AgentJournal {
    var projection: Projection
    var operations: seq<Op>
    ghost var started: seq<Operation>

    ghost predicate Valid()
      reads this
    {
      Journals(operations, projection, started)
    }

    constructor ()
      ensures Valid() && projection == EMPTY && operations == [] && started == []
    {
      projection, operations, started := EMPTY, [], [];
    }

    /** Appending never meets a gap, so the `expect` in the source cannot fire. */
    method Append(operation: Operation)
      requires Valid()
      modifies this
      ensures Valid()
      ensures projection == Effect(old(projection), operation).(lastSequence := Cap(old(projection).lastSequence + 1, U64_MAX))
      ensures |operations| == |old(operations)| + 1 && operations[..|old(operations)|] == old(operations)
      ensures operations[|old(operations)|].operation == operation
      ensures started == if operation.ToolCallStarted? then old(started) + [operation] else old(started)
    {
      var op := Op(OP_VERSION, Cap(projection.lastSequence + 1, U64_MAX), operation);
      ReplaySnoc(EMPTY, operations, op);
      var applied := ApplyOp(projection, op);
      projection := applied.value;
      operations := operations + [op];
      assert operations[..|old(operations)|] == old(operations);
      if operation.ToolCallStarted? { started := started + [operation]; } else { assert started + [] == started; }
    }
  }

  // ----- Checkpoints

  datatype RunStatus = RunCompleted | RunAwaitingInput | RunAwaitingApproval | RunFailed(reason: string) | RunCancelled

  datatype RunResult = RunResult(status: RunStatus, assistantText: string, messages: seq<Message>,
                                 inputTokens: nat, outputTokens: nat, modelCalls: nat, toolCalls: nat, ops: seq<Op>)

  const CHECKPOINT_VERSION := 1

  datatype Checkpoint = Checkpoint(version: nat, result: RunResult)

  /** A stored value with a version field, or a bare result from before there was one. */
  datatype Stored = Bare(result: RunResult) | Versioned(checkpoint: Checkpoint)

  datatype CheckpointError = UnsupportedCheckpoint(version: nat) | BadOperations(error: OpError) | Mismatch

  /** The result's own operations replay to its counters. */
  predicate SelfConsistent(r: RunResult) {
    && Replay(r.ops).Ok?
    && var p := Replay(r.ops).value;
       && p.assistantText == r.assistantText && p.inputTokens == r.inputTokens && p.outputTokens == r.outputTokens
       && p.modelCalls == r.modelCalls && p.toolCalls == r.toolCalls
  }

  function Decode(stored: Stored): (d: Result<Checkpoint, CheckpointError>)
    ensures stored.Versioned? && stored.checkpoint.version == CHECKPOINT_VERSION ==>
              (d.Ok? <==> stored.checkpoint.result.ops == [] || SelfConsistent(stored.checkpoint.result))
    ensures d.Ok? ==> d.value.result == (if stored.Bare? then stored.result else stored.checkpoint.result)
  {
    match stored
    case Bare(result) => Ok(Checkpoint(CHECKPOINT_VERSION, result))
    case Versioned(c) =>
      if c.version != CHECKPOINT_VERSION then Err(UnsupportedCheckpoint(c.version))
      else if c.result.ops == [] then Ok(c)
      else
        match Replay(c.result.ops)
        case Err(e) => Err(BadOperations(e))
        case Ok(p) =>
          if p.assistantText != c.result.assistantText || p.inputTokens != c.result.inputTokens
             || p.outputTokens != c.result.outputTokens || p.modelCalls != c.result.modelCalls
             || p.toolCalls != c.result.toolCalls then Err(Mismatch)
          else Ok(c)
  }
}
