/**
 Compaction of superseded tool history (crates/agent-core/src/lib.rs,
 `compact_superseded_tool_history` and the functions it consults).

 Which results are rewritten is stated position by position: an unprotected result
 with at least six unprotected results after it, unless it is the pinned failure.
 */
module History {
  import opened Wrappers
  import opened Json

  datatype Message = Message(role: string, content: Value)

  const TOOL := "tool"
  const ASSISTANT := "assistant"
  const SYSTEM := "system"
  const RUN_COMMAND := "run_command"
  const LIMIT_KIND := "tool_call_limit"
  const RECENT := 6

  // ----- Reading a message

  function ResultOf(m: Message): Value { At(m.content, "result") }

  /** `content.get("tool_call_id").and_then(as_str)`. */
  function ResultId(m: Message): Option<string> { AsStr(At(m.content, "tool_call_id")) }

  predicate IsToolResult(m: Message) { m.role == TOOL && ResultId(m).Some? }

  predicate IsDeferred(m: Message) {
    && m.role == TOOL
    && IsTrue(At(ResultOf(m), "deferred"))
    && IsFalse(At(ResultOf(m), "executed"))
    && At(ResultOf(m), "deferred_reason") == Str(LIMIT_KIND)
  }

  predicate IsCompacted(m: Message) { IsTrue(At(ResultOf(m), "history_compacted")) }

  predicate IsRunCommand(m: Message) { m.role == TOOL && At(m.content, "name") == Str(RUN_COMMAND) }

  /** A run_command result that was executed, or is no longer marked as deferred. */
  predicate IsVerifier(m: Message) { IsRunCommand(m) && !IsDeferred(m) }

  /** `as_i64`: larger integers are no exit code. */
  predicate IsI64(n: int) { -0x8000_0000_0000_0000 <= n <= 0x7FFF_FFFF_FFFF_FFFF }

  predicate HasFailed(m: Message) {
    || (At(ResultOf(m), "exit_code").Int? && At(ResultOf(m), "exit_code").n != 0 && IsI64(At(ResultOf(m), "exit_code").n))
    || Get(ResultOf(m), "error").Some?
  }

  /** The calls of an assistant message, when it has any. */
  function CallsOf(m: Message): Option<seq<Value>> {
    var calls := At(m.content, "tool_calls");
    if calls.Arr? then Some(calls.items) else None
  }

  function CallId(call: Value): Option<string> { AsStr(At(call, "id")) }

  ghost predicate HasCall(m: Message, id: string) {
    CallsOf(m).Some? && exists i :: 0 <= i < |CallsOf(m).value| && CallId(CallsOf(m).value[i]) == Some(id)
  }

  // ----- Positions

  /** `a` is the last assistant message. */
  ghost predicate IsLastAssistant(messages: seq<Message>, a: nat) {
    a < |messages| && messages[a].role == ASSISTANT && forall j :: a < j < |messages| ==> messages[j].role != ASSISTANT
  }

  /** A deferred result of the batch the last assistant message proposed. */
  ghost predicate IsProtected(messages: seq<Message>, i: nat) {
    && i < |messages| && IsDeferred(messages[i]) && ResultId(messages[i]).Some?
    && exists a: nat :: IsLastAssistant(messages, a) && a < i && HasCall(messages[a], ResultId(messages[i]).value)
  }

  ghost predicate IsOpen(messages: seq<Message>, i: nat) {
    i < |messages| && IsToolResult(messages[i]) && !IsProtected(messages, i)
  }

  /** The number of unprotected results from position `i` on. */
  ghost function OpenFrom(messages: seq<Message>, i: nat): nat
    decreases |messages| - i
  {
    if i >= |messages| then 0 else (if IsOpen(messages, i) then 1 else 0) + OpenFrom(messages, i + 1)
  }

  ghost predicate IsLatestVerifier(messages: seq<Message>, v: nat) {
    v < |messages| && IsVerifier(messages[v]) && forall j :: v < j < |messages| ==> !IsVerifier(messages[j])
  }

  /** The latest executed run_command failed, and this is its result. */
  ghost predicate IsPinned(messages: seq<Message>, i: nat) {
    IsLatestVerifier(messages, i) && HasFailed(messages[i])
  }

  /** Old enough to be superseded. */
  ghost predicate IsAged(messages: seq<Message>, i: nat) {
    IsOpen(messages, i) && OpenFrom(messages, i + 1) >= RECENT
  }

  ghost predicate IsSuperseded(messages: seq<Message>, i: nat) {
    IsAged(messages, i) && !IsPinned(messages, i)
  }

  // ----- Rewriting

  const COMPACTED_REASON := "superseded"

  const COMPACTED_RESULT := Obj(map["history_compacted" := Bool(true), "reason" := Str(COMPACTED_REASON)])

  function NameOf(m: Message): string {
    var name := At(m.content, "name");
    if name.Str? then name.s else "tool"
  }

  function CompactResult(m: Message): Message
    requires ResultId(m).Some?
  {
    m.(content := Obj(map["tool_call_id" := Str(ResultId(m).value), "name" := Str(NameOf(m)),
                          "result" := COMPACTED_RESULT]))
  }

  const COMPACTED_ARGUMENTS := Str("{\"history_compacted\":true}")

  function CompactCall(call: Value): Value {
    if !call.Obj? then call
    else
      var function_ := At(call, "function");
      var fields := if function_.Obj? && "function" in call.fields
                    then call.fields["function" := Obj(function_.fields["arguments" := COMPACTED_ARGUMENTS])]
                    else call.fields;
      Obj(fields["provider_metadata" := Null])
  }

  function CompactCalls(calls: seq<Value>, ids: set<string>): (r: seq<Value>)
    ensures |r| == |calls|
  {
    if calls == [] then []
    else [if CallId(calls[0]).Some? && CallId(calls[0]).value in ids then CompactCall(calls[0]) else calls[0]]
         + CompactCalls(calls[1..], ids)
  }

  function CompactAssistant(m: Message, ids: set<string>): Message {
    if m.role == ASSISTANT && CallsOf(m).Some?
    then m.(content := Obj(m.content.fields["tool_calls" := Arr(CompactCalls(CallsOf(m).value, ids))]))
    else m
  }

  /** The ids of the superseded results. */
  ghost function SupersededIds(messages: seq<Message>): set<string> {
    set i | 0 <= i < |messages| && IsSuperseded(messages, i) :: ResultId(messages[i]).value
  }

  ghost function RewriteAt(messages: seq<Message>, i: nat): Message
    requires i < |messages|
  {
    if IsSuperseded(messages, i) then CompactResult(messages[i])
    else CompactAssistant(messages[i], SupersededIds(messages))
  }

  ghost function RewriteFrom(messages: seq<Message>, i: nat): (r: seq<Message>)
    requires i <= |messages|
    ensures |r| == |messages| - i
    ensures forall k :: 0 <= k < |r| ==> r[k] == RewriteAt(messages, i + k)
    decreases |messages| - i
  {
    if i == |messages| then [] else [RewriteAt(messages, i)] + RewriteFrom(messages, i + 1)
  }

  ghost function Rewrite(messages: seq<Message>): (r: seq<Message>)
    ensures |r| == |messages|
    ensures forall k :: 0 <= k < |r| ==> r[k] == RewriteAt(messages, k)
  {
    RewriteFrom(messages, 0)
  }

  /** The number of superseded results from `i` on that were not compacted before. */
  ghost function NewlyFrom(messages: seq<Message>, i: nat): nat
    decreases |messages| - i
  {
    if i >= |messages| then 0
    else (if IsSuperseded(messages, i) && !IsCompacted(messages[i]) then 1 else 0) + NewlyFrom(messages, i + 1)
  }

  const MARKER_TEXT := "compacted"

  const MARKER := Message("system", Obj(map["tool_history_compaction" := Bool(true), "instruction" := Str(MARKER_TEXT)]))

  predicate IsMarker(m: Message) { IsTrue(At(m.content, "tool_history_compaction")) }

  predicate HasMarker(messages: seq<Message>) {
    exists i :: 0 <= i < |messages| && IsMarker(messages[i])
  }

  function LeadingSystems(messages: seq<Message>): (n: nat)
    ensures n <= |messages|
  {
    if messages != [] && messages[0].role == SYSTEM then 1 + LeadingSystems(messages[1..]) else 0
  }

  function InsertAt(messages: seq<Message>, k: nat, m: Message): seq<Message>
    requires k <= |messages|
  {
    messages[..k] + [m] + messages[k..]
  }

  /** The whole pass. */
  ghost function Compact(messages: seq<Message>): seq<Message> {
    var rewritten := Rewrite(messages);
    if NewlyFrom(messages, 0) > 0 && !HasMarker(rewritten)
    then InsertAt(rewritten, LeadingSystems(rewritten), MARKER)
    else rewritten
  }
}
