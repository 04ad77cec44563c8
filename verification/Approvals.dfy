/**
 The approval queue of the editor client (clients/vscode/approvals.js). `decide`
 is split at its await: the call to the daemon starts in one step and succeeds or
 fails in a later one, and any other operation may run in between.
 */
module Approvals {
  import opened Wrappers
  import opened Sse

  const EXACT_TARGET_TOOLS: set<string> := {"web_open", "pdf_read", "pdf_view"}

  predicate RequiresExactTarget(tool: Option<string>) {
    tool.Some? && tool.value in EXACT_TARGET_TOOLS
  }

  /** The target, when it is a string with something in it. */
  function ExactTarget(target: Option<string>): Option<string> {
    if target.Some? && Trim(target.value) != "" then target else None
  }

  /** What the daemon sends; `None` stands for a field that is not a string. */
  datatype Request = Request(id: string, toolCallId: Option<string>, tool: Option<string>, target: Option<string>)

  /** The guard of `decide` in front of the call. */
  predicate MayCall(request: Request, approved: bool, reviewed: Option<string>) {
    approved && RequiresExactTarget(request.tool) ==>
      ExactTarget(request.target).Some? && reviewed == request.target
  }

  /** An entry object: `{ ...approval, deciding: false }`. */
  class Entry {
    const request: Request
    var deciding: bool

    constructor (request: Request)
      ensures this.request == request && !deciding
    {
      this.request := request;
      deciding := false;
    }
  }

  /** One call of `api.approval`. */
  datatype Call = Call(entry: Entry, approved: bool, reviewed: Option<string>)

  datatype Started = NotPending | Refused | Calling(entry: Entry)

  class ApprovalQueue {
    var pending: seq<Entry>
    ghost var inFlight: multiset<Entry>
    ghost var calls: seq<Call>
    ghost var succeeded: multiset<Entry>

    /**
     An entry is marked exactly while one unfinished call holds it; no entry is held
     twice or decided twice; a held entry is the first with its id; every approving call
     passed the target guard.
     */
    ghost predicate Valid()
      reads this, pending, inFlight
    {
      && Unique(pending)
      && (forall e :: e in pending ==> (e.deciding <==> inFlight[e] == 1))
      && (forall e :: e in inFlight ==> inFlight[e] == 1 && e.deciding)
      && (forall e :: e in succeeded ==> succeeded[e] == 1 && e !in pending && e !in inFlight)
      && (forall c :: c in calls ==> MayCall(c.entry.request, c.approved, c.reviewed))
      && HeldFirst(pending, inFlight)
      && (forall e :: e in inFlight ==> Called(calls, e))
      && (forall e :: e in succeeded ==> Called(calls, e))
    }

    constructor ()
      ensures Valid() && pending == [] && inFlight == multiset{} && calls == [] && succeeded == multiset{}
    {
      pending, inFlight, calls, succeeded := [], multiset{}, [], multiset{};
    }

    method Add(request: Request)
      requires Valid()
      modifies this`pending
      ensures Valid()
      ensures if exists e :: e in old(pending) && e.request.id == request.id
              then pending == old(pending)
              else |pending| == |old(pending)| + 1 && pending[..|pending| - 1] == old(pending)
                   && fresh(pending[|pending| - 1]) && pending[|pending| - 1].request == request
                   && !pending[|pending| - 1].deciding
    {
      if !(exists e :: e in pending && e.request.id == request.id) {
        var entry := new Entry(request);
        pending := pending + [entry];
      }
    }

    /** The first entry no call holds. */
    method First() returns (r: Option<Entry>)
      requires Valid()
      ensures r.None? <==> forall e :: e in pending ==> inFlight[e] == 1
      ensures r.Some? ==> exists i :: 0 <= i < |pending| && pending[i] == r.value && inFlight[r.value] == 0
                            && forall j :: 0 <= j < i ==> inFlight[pending[j]] == 1
    {
      for i := 0 to |pending|
        invariant forall j :: 0 <= j < i ==> inFlight[pending[j]] == 1
      {
        if !pending[i].deciding { return Some(pending[i]); }
      }
      return None;
    }

    /** New entry objects for a snapshot; unfinished calls keep the objects they hold. */
    method Replace(requests: seq<Request>)
      requires Valid()
      modifies this`pending
      ensures Valid()
      ensures |pending| == |requests|
      ensures forall i :: 0 <= i < |requests| ==> fresh(pending[i]) && pending[i].request == requests[i] && !pending[i].deciding
    {
      var entries: seq<Entry> := [];
      for k := 0 to |requests|
        invariant |entries| == k
        invariant forall i :: 0 <= i < k ==> fresh(entries[i]) && entries[i].request == requests[i] && !entries[i].deciding
        invariant forall i, j :: 0 <= i < j < k ==> entries[i] != entries[j]
      {
        var entry := new Entry(requests[k]);
        entries := entries + [entry];
      }
      pending := entries;
    }

    method RemoveById(id: string)
      requires Valid()
      modifies this`pending
      ensures Valid()
      ensures pending == (if id == "" then old(pending) else Without(old(pending), ById(id)))
    {
      if id == "" { return; }
      WithoutProperties(pending, ById(id));
      WithoutHeldFirst(pending, ById(id), inFlight);
      pending := Without(pending, ById(id));
    }

    method RemoveByToolCall(toolCallId: Option<string>)
      requires Valid()
      modifies this`pending
      ensures Valid()
      ensures pending == (if toolCallId == None || toolCallId == Some("") then old(pending)
                          else Without(old(pending), ByToolCall(toolCallId)))
    {
      if toolCallId == None || toolCallId == Some("") { return; }
      WithoutProperties(pending, ByToolCall(toolCallId));
      WithoutHeldFirst(pending, ByToolCall(toolCallId), inFlight);
      pending := Without(pending, ByToolCall(toolCallId));
    }

    /** `this.pending.find(...)`, as an index. */
    method Find(id: string) returns (i: nat)
      ensures i <= |pending|
      ensures i < |pending| ==> FirstWithId(pending, id, i)
      ensures i == |pending| ==> forall e :: e in pending ==> e.request.id != id
    {
      i := 0;
      while i < |pending| && pending[i].request.id != id
        invariant 0 <= i <= |pending|
        invariant forall j :: 0 <= j < i ==> pending[j].request.id != id
      {
        i := i + 1;
      }
    }

    /** Marking the entry and calling the daemon. */
    method Hold(entry: Entry, approved: bool, reviewed: Option<string>)
      requires Valid() && entry in pending && !entry.deciding && MayCall(entry.request, approved, reviewed)
      requires exists i :: 0 <= i < |pending| && pending[i] == entry && FirstWithId(pending, entry.request.id, i)
      modifies this`inFlight, this`calls, entry
      ensures Valid() && entry.deciding
      ensures old(inFlight)[entry] == 0 && inFlight == old(inFlight) + multiset{entry}
      ensures calls == old(calls) + [Call(entry, approved, reviewed)]
    {
      entry.deciding := true;
      inFlight := inFlight + multiset{entry};
      CalledMore(calls, Call(entry, approved, reviewed));
      calls := calls + [Call(entry, approved, reviewed)];
    }

    /** `decide` up to its await: the first entry with the id, if it is free and the guard lets it through. */
    method DecideStart(id: string, approved: bool, reviewed: Option<string>) returns (r: Started, ghost at: nat)
      requires Valid()
      modifies this`inFlight, this`calls, pending
      ensures Valid() && at <= |pending|
      ensures if at < |pending| then FirstWithId(pending, id, at) else forall e :: e in pending ==> e.request.id != id
      ensures r == if at == |pending| || pending[at] in old(inFlight) then NotPending
                   else if MayCall(pending[at].request, approved, reviewed) then Calling(pending[at]) else Refused
      ensures inFlight == if r.Calling? then old(inFlight) + multiset{r.entry} else old(inFlight)
      ensures calls == if r.Calling? then old(calls) + [Call(r.entry, approved, reviewed)] else old(calls)
    {
      var i := Find(id);
      at := i;
      if i == |pending| { return NotPending, i; }
      var entry := pending[i];
      if entry.deciding { return NotPending, i; }
      if approved && RequiresExactTarget(entry.request.tool)
         && (ExactTarget(entry.request.target) == None || reviewed != entry.request.target) {
        return Refused, i;
      }
      Hold(entry, approved, reviewed);
      return Calling(entry), i;
    }

    /** `decide` after its await. */
    method DecideEnd(entry: Entry, success: bool)
      requires Valid() && entry in inFlight
      modifies this`pending, this`inFlight, this`succeeded, entry
      ensures Valid() && inFlight == old(inFlight) - multiset{entry}
      ensures pending == if success then Without(old(pending), ByIdentity(entry)) else old(pending)
      ensures succeeded == if success then old(succeeded) + multiset{entry} else old(succeeded)
    {
      if success { DecideSucceed(entry); } else { DecideFail(entry); }
    }

    /** The call returned: the very entry it holds leaves the queue. */
    method DecideSucceed(entry: Entry)
      requires Valid() && entry in inFlight
      modifies this`pending, this`inFlight, this`succeeded
      ensures Valid()
      ensures pending == Without(old(pending), ByIdentity(entry))
      ensures inFlight == old(inFlight) - multiset{entry} && succeeded == old(succeeded) + multiset{entry}
    {
      WithoutProperties(pending, ByIdentity(entry));
      WithoutHeldFirst(pending, ByIdentity(entry), inFlight);
      pending := Without(pending, ByIdentity(entry));
      inFlight := inFlight - multiset{entry};
      succeeded := succeeded + multiset{entry};
    }

    /** The call failed: the entry may be decided again, if it is still queued. */
    method DecideFail(entry: Entry)
      requires Valid() && entry in inFlight
      modifies this`inFlight, entry
      ensures Valid() && !entry.deciding
      ensures inFlight == old(inFlight) - multiset{entry}
    {
      entry.deciding := false;
      inFlight := inFlight - multiset{entry};
    }
  }

  ghost predicate Unique(entries: seq<Entry>) {
    forall i, j :: 0 <= i < j < |entries| ==> entries[i] != entries[j]
  }

  /** No entry in front of a held one has its id. */
  ghost predicate HeldFirst(entries: seq<Entry>, held: multiset<Entry>) {
    forall j, i :: 0 <= j < i < |entries| && entries[i] in held ==> entries[j].request.id != entries[i].request.id
  }

  ghost predicate Called(calls: seq<Call>, entry: Entry) {
    exists k :: 0 <= k < |calls| && calls[k].entry == entry
  }

  lemma CalledMore(calls: seq<Call>, call: Call)
    ensures Called(calls + [call], call.entry)
    ensures forall e :: Called(calls, e) ==> Called(calls + [call], e)
  {
    var more := calls + [call];
    assert more[|calls|].entry == call.entry;
    forall e | Called(calls, e)
      ensures Called(more, e)
    {
      var k :| 0 <= k < |calls| && calls[k].entry == e;
      assert more[k].entry == e;
    }
  }

  predicate FirstWithId(entries: seq<Entry>, id: string, i: nat)
    requires i < |entries|
  {
    entries[i].request.id == id && forall j :: 0 <= j < i ==> entries[j].request.id != id
  }

  /** The three conditions entries are filtered by. */
  datatype Drop = ById(id: string) | ByToolCall(toolCallId: Option<string>) | ByIdentity(entry: Entry)

  predicate Drops(drop: Drop, e: Entry) {
    match drop
    case ById(id) => e.request.id == id
    case ByToolCall(toolCallId) => e.request.toolCallId == toolCallId
    case ByIdentity(entry) => e == entry
  }

  /** `filter`: the entries that are not dropped, in order. */
  function Without(entries: seq<Entry>, drop: Drop): seq<Entry> {
    if entries == [] then []
    else (if Drops(drop, entries[0]) then [] else [entries[0]]) + Without(entries[1..], drop)
  }

  lemma {:induction false} WithoutProperties(entries: seq<Entry>, drop: Drop)
    requires Unique(entries)
    ensures Unique(Without(entries, drop))
    ensures forall e :: e in Without(entries, drop) <==> e in entries && !Drops(drop, e)
  {
    if entries != [] {
      var tail := entries[1..];
      assert entries == [entries[0]] + tail;
      assert Unique(tail);
      WithoutProperties(tail, drop);
      assert forall e :: e in tail ==> e != entries[0];
      assert entries[0] !in Without(tail, drop);
    }
  }

  lemma {:induction false} WithoutHeldFirst(entries: seq<Entry>, drop: Drop, held: multiset<Entry>)
    requires Unique(entries) && HeldFirst(entries, held)
    ensures HeldFirst(Without(entries, drop), held)
  {
    if entries != [] {
      var first, tail := entries[0], entries[1..];
      assert entries == [first] + tail;
      WithoutHeldFirst(tail, drop, held);
      assert Unique(tail);
      WithoutProperties(tail, drop);
      var kept := Without(tail, drop);
      forall i | 0 <= i < |kept| && kept[i] in held
        ensures kept[i].request.id != first.request.id
      {
        assert kept[i] in tail;
      }
    }
  }
}
