/**
 Dispatching a model request (crates/agent-core/src/lib.rs): the media that may
 travel with it, and `stream_with_retry`.
 */
module Provider {
  import opened Wrappers
  import opened Json
  import opened History

  type Media = seq<string>

  datatype ModelRequest = ModelRequest(messages: seq<Message>, media: map<string, Media>, maxOutputTokens: nat)

  // ----- Media and its results

  predicate IsResultFor(m: Message, id: string) { m.role == TOOL && ResultId(m) == Some(id) }

  /** The result is an object that compaction has not rewritten. */
  predicate IsIntact(m: Message) { ResultOf(m).Obj? && !IsCompacted(m) }

  function ResultsFor(messages: seq<Message>, id: string): seq<Message> {
    if messages == [] then []
    else (if IsResultFor(messages[0], id) then [messages[0]] else []) + ResultsFor(messages[1..], id)
  }

  predicate IsAttached(messages: seq<Message>, id: string) {
    var results := ResultsFor(messages, id);
    |results| == 1 && IsIntact(results[0])
  }

  ghost predicate OnlyResult(messages: seq<Message>, id: string, i: nat) {
    && i < |messages| && IsResultFor(messages[i], id)
    && forall j :: 0 <= j < |messages| && IsResultFor(messages[j], id) ==> j == i
  }

  lemma {:induction false} NoResults(messages: seq<Message>, id: string)
    ensures ResultsFor(messages, id) == [] <==> forall j :: 0 <= j < |messages| ==> !IsResultFor(messages[j], id)
  {
    if messages != [] {
      NoResults(messages[1..], id);
      if forall j :: 0 <= j < |messages| ==> !IsResultFor(messages[j], id) {
        forall j | 0 <= j < |messages[1..]|
          ensures !IsResultFor(messages[1..][j], id)
        {
          assert messages[1..][j] == messages[j + 1];
        }
      }
      if ResultsFor(messages, id) == [] {
        forall j | 0 <= j < |messages|
          ensures !IsResultFor(messages[j], id)
        {
          if j > 0 { assert messages[j] == messages[1..][j - 1]; }
        }
      }
    }
  }

  lemma {:induction false} OneResult(messages: seq<Message>, id: string) returns (i: nat)
    requires |ResultsFor(messages, id)| == 1
    ensures OnlyResult(messages, id, i) && ResultsFor(messages, id)[0] == messages[i]
  {
    if IsResultFor(messages[0], id) {
      i := 0;
      NoResults(messages[1..], id);
      assert forall j :: 0 < j < |messages| ==> messages[1..][j - 1] == messages[j];
    } else {
      var k := OneResult(messages[1..], id);
      i := k + 1;
      forall j | 0 <= j < |messages| && IsResultFor(messages[j], id)
        ensures j == i
      {
        if j > 0 { assert messages[1..][j - 1] == messages[j]; }
      }
    }
  }

  lemma {:induction false} OnlyResultIsFound(messages: seq<Message>, id: string, i: nat)
    requires OnlyResult(messages, id, i)
    ensures ResultsFor(messages, id) == [messages[i]]
  {
    if i == 0 {
      forall j | 0 <= j < |messages[1..]|
        ensures !IsResultFor(messages[1..][j], id)
      {
        assert messages[1..][j] == messages[j + 1];
      }
      NoResults(messages[1..], id);
    } else {
      assert messages[1..][i - 1] == messages[i];
      forall j | 0 <= j < |messages[1..]| && IsResultFor(messages[1..][j], id)
        ensures j == i - 1
      {
        assert messages[1..][j] == messages[j + 1];
      }
      OnlyResultIsFound(messages[1..], id, i - 1);
    }
  }

  /** Attached means: exactly one tool result carries the id, and it is intact. */
  lemma AttachedExactly(messages: seq<Message>, id: string)
    ensures IsAttached(messages, id) <==>
            exists i :: 0 <= i < |messages| && OnlyResult(messages, id, i) && IsIntact(messages[i])
  {
    if IsAttached(messages, id) { var i := OneResult(messages, id); }
    if i :| 0 <= i < |messages| && OnlyResult(messages, id, i) && IsIntact(messages[i]) {
      OnlyResultIsFound(messages, id, i);
    }
  }

  ghost predicate AllAttached(r: ModelRequest) {
    forall id :: id in r.media ==> IsAttached(r.messages, id)
  }

  /** `retain_attached_tool_media`. */
  function RetainAttached(messages: seq<Message>, media: map<string, Media>): (kept: map<string, Media>)
    ensures forall id :: id in kept <==> id in media && IsAttached(messages, id)
    ensures forall id :: id in kept ==> kept[id] == media[id]
  {
    map id | id in media && IsAttached(messages, id) :: media[id]
  }

  const WITHDRAWN := Obj(map[
    "error" := Str("image withdrawn"),
    "retryable" := Bool(false)])

  /** The message with its result replaced, when it carried media. */
  function Withdrawn(m: Message, media: set<string>): Message {
    if m.role == TOOL && ResultId(m).Some? && ResultId(m).value in media && m.content.Obj?
    then m.(content := Obj(m.content.fields["result" := WITHDRAWN]))
    else m
  }

  method WithdrawToolMedia(request: ModelRequest) returns (r: ModelRequest)
    ensures r.media == map[] && r.maxOutputTokens == request.maxOutputTokens
    ensures |r.messages| == |request.messages|
    ensures forall i :: 0 <= i < |r.messages| ==> r.messages[i] == Withdrawn(request.messages[i], request.media.Keys)
  {
    var messages := request.messages;
    for k := 0 to |messages|
      invariant |messages| == |request.messages|
      invariant forall i :: 0 <= i < |messages| ==>
                  messages[i] == (if i < k then Withdrawn(request.messages[i], request.media.Keys) else request.messages[i])
    {
      messages := messages[k := Withdrawn(messages[k], request.media.Keys)];
    }
    return ModelRequest(messages, map[], request.maxOutputTokens);
  }

  // ----- Retrying

  datatype Interrupt = ByCancellation | ByDeadline | ByIdleTimeout

  /** What comes of one dispatch: a stream, an error of some class, or something else fires first. */
  datatype Reply = Streaming | Rejected | ContextOverflow | Transient | Fatal | Interrupted(why: Interrupt)

  datatype StreamError = Gateway(reply: Reply) | Interruption(why: Interrupt)

  /** The error classes that name a fallback reason. */
  predicate HasFallback(reply: Reply) { reply.Transient? || reply.ContextOverflow? }

  /**
   The dispatch loop. `replies` says what each dispatch meets, `pack` what overflow
   packing makes of the messages, if it makes them smaller; both are arbitrary.
   */
  method StreamWithRetry(start: ModelRequest, maxRetries: nat, replies: nat -> Reply,
                         pack: seq<Message> -> Option<seq<Message>>)
    returns (outcome: Result<ModelRequest, StreamError>, dispatched: seq<ModelRequest>)
    requires AllAttached(start)
    ensures 0 < |dispatched| <= maxRetries + 3
    ensures forall k :: 0 <= k < |dispatched| ==> AllAttached(dispatched[k])
    ensures forall k :: 0 <= k < |dispatched| ==> dispatched[k].maxOutputTokens == start.maxOutputTokens
    ensures outcome.Ok? ==> outcome.value == dispatched[|dispatched| - 1] && replies(|dispatched| - 1) == Streaming
    ensures outcome.Err? ==> outcome.error == (match replies(|dispatched| - 1)
                                               case Interrupted(why) => Interruption(why)
                                               case reply => Gateway(reply))
    ensures replies(0).Interrupted? ==> |dispatched| == 1
  {
    var request := start;
    dispatched := [];
    var attempt := 0;
    var contextCompacted := false;
    ghost var withdrawn := false;
    while true
      invariant AllAttached(request) && request.maxOutputTokens == start.maxOutputTokens
      invariant attempt <= maxRetries && (withdrawn ==> request.media == map[])
      invariant |dispatched| == attempt + (if contextCompacted then 1 else 0) + (if withdrawn then 1 else 0)
      invariant forall k :: 0 <= k < |dispatched| ==> AllAttached(dispatched[k])
      invariant forall k :: 0 <= k < |dispatched| ==> dispatched[k].maxOutputTokens == start.maxOutputTokens
      invariant dispatched == [] || !replies(0).Interrupted?
      decreases maxRetries - attempt, !contextCompacted, !withdrawn
    {
      var reply := replies(|dispatched|);
      dispatched := dispatched + [request];
      if reply.Interrupted? { return Err(Interruption(reply.why)), dispatched; }
      if reply.Streaming? { return Ok(request), dispatched; }
      if reply.Rejected? && request.media != map[] {
        request := WithdrawToolMedia(request);
        withdrawn := true;
      } else if reply.ContextOverflow? && !contextCompacted {
        var packed := pack(request.messages);
        if packed.None? { return Err(Gateway(reply)), dispatched; }
        contextCompacted := true;
        request := ModelRequest(packed.value, RetainAttached(packed.value, request.media), request.maxOutputTokens);
      } else if attempt < maxRetries && HasFallback(reply) {
        attempt := attempt + 1;
      } else {
        return Err(Gateway(reply)), dispatched;
      }
    }
  }
}
