/**
 Tool calls of one model response (crates/agent-core/src/lib.rs): assembling them
 from stream deltas, reporting their results, counting identical failures.
 */
module ToolCalls {
  import opened Wrappers
  import opened Json
  import opened History
  import opened Steps

  // ----- Assembling

  datatype Builder = Builder(id: Option<string>, name: Option<string>, arguments: string, metadata: Option<Value>)

  const EMPTY_BUILDER := Builder(None, None, "", None)

  datatype ToolCall = ToolCall(id: string, name: string, arguments: string, metadata: Option<Value>)

  datatype Delta = Delta(index: nat, id: Option<string>, name: Option<string>, arguments: string, metadata: Option<Value>)

  datatype Slot = Slot(index: nat, builder: Builder)

  function Extend(b: Builder, d: Delta): Builder {
    Builder(if d.id.Some? then d.id else b.id, if d.name.Some? then d.name else b.name,
            b.arguments + d.arguments, if d.metadata.Some? then d.metadata else b.metadata)
  }

  /** The ordered map of builders, with the delta applied to its slot. */
  function AddDelta(slots: seq<Slot>, d: Delta): seq<Slot> {
    if slots == [] || d.index < slots[0].index then [Slot(d.index, Extend(EMPTY_BUILDER, d))] + slots
    else if d.index == slots[0].index then [Slot(d.index, Extend(slots[0].builder, d))] + slots[1..]
    else [slots[0]] + AddDelta(slots[1..], d)
  }

  ghost predicate Ascending(slots: seq<Slot>) {
    forall i, j :: 0 <= i < j < |slots| ==> slots[i].index < slots[j].index
  }

  /** Slots stay in ascending order, whatever order the deltas arrive in. */
  lemma {:induction false} AddDeltaAscending(slots: seq<Slot>, d: Delta)
    requires Ascending(slots)
    ensures Ascending(AddDelta(slots, d))
    ensures forall s :: s in AddDelta(slots, d) ==> s.index == d.index || s in slots
  {
    if slots != [] && d.index > slots[0].index {
      AddDeltaAscending(slots[1..], d);
      var rest := AddDelta(slots[1..], d);
      forall j | 0 <= j < |rest|
        ensures slots[0].index < rest[j].index
      {
        assert rest[j] in rest;
      }
    }
  }

  function BuilderAt(slots: seq<Slot>, index: nat): Option<Builder> {
    if slots == [] then None
    else if slots[0].index == index then Some(slots[0].builder)
    else BuilderAt(slots[1..], index)
  }

  /** No slot in front of the first. */
  lemma {:induction false} NotInFront(slots: seq<Slot>, index: nat)
    requires forall i :: 0 <= i < |slots| ==> slots[i].index > index
    ensures BuilderAt(slots, index) == None
  {
    if slots != [] { NotInFront(slots[1..], index); }
  }

  /** A delta extends the builder of its own index, starting an empty one if need be, and touches no other. */
  lemma {:induction false} AddDeltaUpdatesOne(slots: seq<Slot>, d: Delta, index: nat)
    requires Ascending(slots)
    ensures BuilderAt(AddDelta(slots, d), index) ==
            if index != d.index then BuilderAt(slots, index)
            else Some(Extend(if BuilderAt(slots, index).Some? then BuilderAt(slots, index).value else EMPTY_BUILDER, d))
  {
    if slots == [] || d.index < slots[0].index {
      if index == d.index { NotInFront(slots, index); }
      assert AddDelta(slots, d)[1..] == slots;
    } else if d.index == slots[0].index {
      assert AddDelta(slots, d)[1..] == slots[1..];
    } else {
      AddDeltaUpdatesOne(slots[1..], d, index);
      assert AddDelta(slots, d)[1..] == AddDelta(slots[1..], d);
    }
  }

  function Complete(slots: seq<Slot>): Result<seq<ToolCall>, string> {
    if slots == [] then Ok([])
    else if slots[0].builder.id.None? then Err("missing call id")
    else if slots[0].builder.name.None? then Err("missing tool name")
    else
      var b := slots[0].builder;
      match Complete(slots[1..])
      case Err(e) => Err(e)
      case Ok(rest) => Ok([ToolCall(b.id.value, b.name.value, b.arguments, b.metadata)] + rest)
  }

  /** Every slot becomes a call, in order, exactly when each has an id and a name; nothing is dropped. */
  lemma {:induction false} CompleteExactly(slots: seq<Slot>)
    ensures Complete(slots).Ok? <==>
            forall i :: 0 <= i < |slots| ==> slots[i].builder.id.Some? && slots[i].builder.name.Some?
    ensures Complete(slots).Ok? ==>
              && |Complete(slots).value| == |slots|
              && forall i :: 0 <= i < |slots| ==>
                   var b := slots[i].builder;
                   Builder(Some(Complete(slots).value[i].id), Some(Complete(slots).value[i].name),
                           Complete(slots).value[i].arguments, Complete(slots).value[i].metadata) == b
  {
    if slots != [] {
      CompleteExactly(slots[1..]);
      assert forall i :: 0 < i < |slots| ==> slots[i] == slots[1..][i - 1];
      if Complete(slots[1..]).Err? {
        var i :| 0 <= i < |slots[1..]| && !(slots[1..][i].builder.id.Some? && slots[1..][i].builder.name.Some?);
        assert slots[i + 1] == slots[1..][i];
      }
    }
  }

  // ----- Reporting

  function ToolMessage(id: string, name: string, value: Value): Message {
    Message(TOOL, Obj(map["tool_call_id" := Str(id), "name" := Str(name), "result" := value]))
  }

  const LIMIT_RESULT := Obj(map[
    "error" := Str("not executed"),
    "retryable" := Bool(true), "deferred" := Bool(true), "executed" := Bool(false),
    "deferred_reason" := Str(LIMIT_KIND)])

  const DEFERRED_RESULT := Obj(map[
    "error" := Str("deferred"),
    "retryable" := Bool(true), "deferred" := Bool(true)])

  function FailureResult(error: string, retryable: bool): Value {
    Obj(map["error" := Str(error), "retryable" := Bool(retryable)])
  }

  function LimitMessages(calls: seq<ToolCall>): (r: seq<Message>)
    ensures |r| == |calls|
  {
    if calls == [] then [] else [ToolMessage(calls[0].id, calls[0].name, LIMIT_RESULT)] + LimitMessages(calls[1..])
  }

  /** An over-limit batch gets one deferred result for each call, in order, under its own id. */
  lemma {:induction false} LimitMessagesAnswer(calls: seq<ToolCall>, i: nat)
    requires i < |calls|
    ensures IsDeferred(LimitMessages(calls)[i]) && ResultId(LimitMessages(calls)[i]) == Some(calls[i].id)
  {
    if i > 0 {
      LimitMessagesAnswer(calls[1..], i - 1);
      assert LimitMessages(calls)[i] == LimitMessages(calls[1..])[i - 1];
    } else {
      var m := ToolMessage(calls[0].id, calls[0].name, LIMIT_RESULT);
      assert At(m.content, "result") == LIMIT_RESULT;
    }
  }

  /** A result waiting in the queue. */
  function Report(m: Message): StepRequest { NewRequest("tool_result", [m], ActiveTurnOnly, true, false) }

  function Reports(results: seq<Message>): (r: seq<StepRequest>)
    ensures |r| == |results|
  {
    if results == [] then [] else [Report(results[0])] + Reports(results[1..])
  }

  lemma {:induction false} ReportsSnoc(results: seq<Message>, m: Message)
    ensures Reports(results + [m]) == Reports(results) + [Report(m)]
  {
    if results == [] {
      assert results + [m] == [m] && [m][1..] == [];
    } else {
      ReportsSnoc(results[1..], m);
      assert (results + [m])[1..] == results[1..] + [m];
    }
  }

  /** Results of a batch, waiting in the queue, all reach the model in its next step. */
  lemma ReportsReachTheModel(live: seq<StepRequest>, results: seq<Message>, i: nat)
    requires i < |results| && forall k :: 0 <= k < |results| ==> Report(results[k]) in live
    ensures live != []
    ensures var batch := Batch(live[DriverIndex(live)], Mergeable(Others(live))); results[i] in BatchMessages(batch)
  {
    var r := Report(results[i]);
    assert r in live;
    MergeableIsTaken(live, r);
    assert Messages(r) == [results[i]];
    if r in Mergeable(Others(live)) { InAllMessages(Mergeable(Others(live)), r, results[i]); }
  }

  lemma {:induction false} InAllMessages(items: seq<StepRequest>, r: StepRequest, m: Message)
    requires r in items && m in Messages(r)
    ensures m in AllMessages(items)
  {
    if r != items[0] { InAllMessages(items[1..], r, m); }
  }

  // ----- Identical failures

  datatype OutcomeKind = Success | Failure | Pause

  datatype Outcome = Outcome(fingerprint: string, kind: OutcomeKind)

  function Fingerprint(call: ToolCall): string { call.name + ":" + call.arguments }

  /** Failures of the fingerprint since its last success. */
  function FailuresSince(outcomes: seq<Outcome>, fingerprint: string): nat {
    if outcomes == [] then 0
    else
      var n := |outcomes| - 1;
      var last := outcomes[n];
      if last.fingerprint != fingerprint || last.kind.Pause? then FailuresSince(outcomes[..n], fingerprint)
      else if last.kind.Success? then 0
      else 1 + FailuresSince(outcomes[..n], fingerprint)
  }

  function Counted(failures: map<string, nat>, fingerprint: string): nat {
    if fingerprint in failures then failures[fingerprint] else 0
  }

  /** The map holds, for every fingerprint, its failures since its last success. */
  ghost predicate CountsFailures(failures: map<string, nat>, outcomes: seq<Outcome>) {
    forall f :: Counted(failures, f) == FailuresSince(outcomes, f)
  }

  function Recount(failures: map<string, nat>, o: Outcome): map<string, nat> {
    match o.kind
    case Success => failures - {o.fingerprint}
    case Failure => failures[o.fingerprint := Counted(failures, o.fingerprint) + 1]
    case Pause => failures
  }

  lemma {:induction false} RecountCounts(failures: map<string, nat>, outcomes: seq<Outcome>, o: Outcome)
    requires CountsFailures(failures, outcomes)
    ensures CountsFailures(Recount(failures, o), outcomes + [o])
  {
    forall f
      ensures Counted(Recount(failures, o), f) == FailuresSince(outcomes + [o], f)
    {
      assert (outcomes + [o])[..|outcomes|] == outcomes;
      assert Counted(failures, f) == FailuresSince(outcomes, f);
    }
  }
}
