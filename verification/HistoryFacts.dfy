/** What one compaction pass keeps, and when a second pass changes nothing. */
module HistoryFacts {
  import opened Wrappers
  import opened Json
  import opened History

  // ----- One message

  lemma CompactCallKeepsId(call: Value)
    ensures CallId(CompactCall(call)) == CallId(call)
  {
  }

  /** The ids of a list of calls, in order. */
  function CallIds(calls: seq<Value>): seq<Option<string>> {
    if calls == [] then [] else [CallId(calls[0])] + CallIds(calls[1..])
  }

  lemma {:induction false} CompactCallsKeepIds(calls: seq<Value>, ids: set<string>)
    ensures CallIds(CompactCalls(calls, ids)) == CallIds(calls)
    ensures forall i :: 0 <= i < |calls| ==> CallId(CompactCalls(calls, ids)[i]) == CallId(calls[i])
  {
    if calls != [] {
      CompactCallsKeepIds(calls[1..], ids);
      CompactCallKeepsId(calls[0]);
      var r := CompactCalls(calls, ids);
      assert r[1..] == CompactCalls(calls[1..], ids);
      forall i | 0 <= i < |calls|
        ensures CallId(r[i]) == CallId(calls[i])
      {
        if i > 0 { assert r[i] == r[1..][i - 1] && calls[i] == calls[1..][i - 1]; }
      }
    }
  }

  /** A call changes only when its id was superseded. */
  lemma {:induction false} CompactCallsAt(calls: seq<Value>, ids: set<string>, i: nat)
    requires i < |calls|
    ensures CompactCalls(calls, ids)[i]
            == if CallId(calls[i]).Some? && CallId(calls[i]).value in ids then CompactCall(calls[i]) else calls[i]
  {
    if i > 0 {
      CompactCallsAt(calls[1..], ids, i - 1);
      assert CompactCalls(calls, ids)[i] == CompactCalls(calls[1..], ids)[i - 1];
    }
  }

  ghost predicate SameShape(a: Message, b: Message) {
    && a.role == b.role
    && ResultId(a) == ResultId(b)
    && IsRunCommand(a) == IsRunCommand(b)
    && (CallsOf(a).Some? && a.role == ASSISTANT <==> CallsOf(b).Some? && b.role == ASSISTANT)
    && (CallsOf(a).Some? && a.role == ASSISTANT ==> CallIds(CallsOf(a).value) == CallIds(CallsOf(b).value))
  }

  lemma CompactResultShape(m: Message)
    requires IsToolResult(m)
    ensures SameShape(CompactResult(m), m)
    ensures IsCompacted(CompactResult(m)) && !IsDeferred(CompactResult(m)) && !HasFailed(CompactResult(m))
    ensures CompactResult(CompactResult(m)) == CompactResult(m)
  {
    var c := CompactResult(m);
    assert At(c.content, "result") == COMPACTED_RESULT;
    assert At(c.content, "tool_call_id") == Str(ResultId(m).value);
    assert At(c.content, "name") == Str(NameOf(m));
    assert "error" !in COMPACTED_RESULT.fields && "exit_code" !in COMPACTED_RESULT.fields;
    assert "deferred" !in COMPACTED_RESULT.fields;
  }

  lemma CompactAssistantShape(m: Message, ids: set<string>)
    ensures SameShape(CompactAssistant(m, ids), m)
    ensures m.role != ASSISTANT ==> CompactAssistant(m, ids) == m
  {
    if m.role == ASSISTANT && CallsOf(m).Some? {
      CompactCallsKeepIds(CallsOf(m).value, ids);
    }
  }

  lemma SameIdsSameCalls(a: seq<Value>, b: seq<Value>, i: nat)
    requires CallIds(a) == CallIds(b) && i < |a|
    ensures |a| == |b| && CallId(a[i]) == CallId(b[i])
  {
    CallIdsLength(a);
    CallIdsLength(b);
    assert CallIds(a)[i] == CallIds(b)[i];
  }

  lemma {:induction false} CallIdsLength(calls: seq<Value>)
    ensures |CallIds(calls)| == |calls|
    ensures forall i :: 0 <= i < |calls| ==> CallIds(calls)[i] == CallId(calls[i])
  {
    if calls != [] {
      CallIdsLength(calls[1..]);
      forall i | 0 <= i < |calls|
        ensures CallIds(calls)[i] == CallId(calls[i])
      {
        if i > 0 { assert CallIds(calls)[i] == CallIds(calls[1..])[i - 1] && calls[i] == calls[1..][i - 1]; }
      }
    }
  }

  lemma SameShapeSameCalls(a: Message, b: Message, id: string)
    requires SameShape(a, b) && a.role == ASSISTANT
    ensures HasCall(a, id) <==> HasCall(b, id)
  {
    if HasCall(a, id) {
      var i :| 0 <= i < |CallsOf(a).value| && CallId(CallsOf(a).value[i]) == Some(id);
      SameIdsSameCalls(CallsOf(a).value, CallsOf(b).value, i);
      assert CallId(CallsOf(b).value[i]) == Some(id);
    }
    if HasCall(b, id) {
      var i :| 0 <= i < |CallsOf(b).value| && CallId(CallsOf(b).value[i]) == Some(id);
      SameIdsSameCalls(CallsOf(b).value, CallsOf(a).value, i);
      assert CallId(CallsOf(a).value[i]) == Some(id);
    }
  }

  // ----- One pass: what every position keeps

  /** Role, result id and call ids of every position survive; everything recent, protected or pinned is verbatim. */
  lemma RewriteKeeps(messages: seq<Message>, i: nat)
    requires i < |messages|
    ensures SameShape(Rewrite(messages)[i], messages[i])
    ensures !IsSuperseded(messages, i) && messages[i].role != ASSISTANT ==> Rewrite(messages)[i] == messages[i]
    ensures IsSuperseded(messages, i) ==> IsCompacted(Rewrite(messages)[i]) && !IsDeferred(Rewrite(messages)[i])
                                          && !HasFailed(Rewrite(messages)[i])
  {
    if IsSuperseded(messages, i) {
      CompactResultShape(messages[i]);
    } else {
      CompactAssistantShape(messages[i], SupersededIds(messages));
    }
  }

  lemma RewriteKeepsLastAssistant(messages: seq<Message>, a: nat)
    ensures IsLastAssistant(Rewrite(messages), a) <==> IsLastAssistant(messages, a)
  {
    forall j | 0 <= j < |messages|
      ensures Rewrite(messages)[j].role == messages[j].role
    {
      RewriteKeeps(messages, j);
    }
  }

  lemma RewriteKeepsProtected(messages: seq<Message>, i: nat)
    ensures IsProtected(Rewrite(messages), i) <==> IsProtected(messages, i)
  {
    if i < |messages| {
      var after := Rewrite(messages);
      RewriteKeeps(messages, i);
      if IsProtected(messages, i) {
        assert !IsOpen(messages, i) && after[i] == messages[i];
        var a: nat :| IsLastAssistant(messages, a) && a < i && HasCall(messages[a], ResultId(messages[i]).value);
        RewriteKeepsLastAssistant(messages, a);
        RewriteKeeps(messages, a);
        SameShapeSameCalls(after[a], messages[a], ResultId(messages[i]).value);
        assert IsLastAssistant(after, a) && a < i && HasCall(after[a], ResultId(after[i]).value);
      }
      if IsProtected(after, i) {
        assert !IsSuperseded(messages, i) && after[i] == messages[i];
        var a: nat :| IsLastAssistant(after, a) && a < i && HasCall(after[a], ResultId(after[i]).value);
        RewriteKeepsLastAssistant(messages, a);
        RewriteKeeps(messages, a);
        SameShapeSameCalls(after[a], messages[a], ResultId(messages[i]).value);
        assert IsLastAssistant(messages, a) && a < i && HasCall(messages[a], ResultId(messages[i]).value);
      }
    }
  }

  lemma RewriteKeepsOpen(messages: seq<Message>, i: nat)
    ensures IsOpen(Rewrite(messages), i) <==> IsOpen(messages, i)
  {
    RewriteKeepsProtected(messages, i);
    if i < |messages| { RewriteKeeps(messages, i); }
  }

  lemma {:induction false} SameOpenFrom(a: seq<Message>, b: seq<Message>, i: nat)
    requires |a| == |b| && forall j: nat :: IsOpen(a, j) <==> IsOpen(b, j)
    ensures OpenFrom(a, i) == OpenFrom(b, i)
    decreases |a| - i
  {
    if i < |a| { SameOpenFrom(a, b, i + 1); }
  }

  lemma RewriteKeepsOpenFrom(messages: seq<Message>, i: nat)
    ensures OpenFrom(Rewrite(messages), i) == OpenFrom(messages, i)
  {
    forall j: nat
      ensures IsOpen(Rewrite(messages), j) <==> IsOpen(messages, j)
    {
      RewriteKeepsOpen(messages, j);
    }
    SameOpenFrom(Rewrite(messages), messages, i);
  }

  lemma RewriteKeepsAged(messages: seq<Message>, i: nat)
    ensures IsAged(Rewrite(messages), i) <==> IsAged(messages, i)
  {
    RewriteKeepsOpen(messages, i);
    RewriteKeepsOpenFrom(messages, i + 1);
  }

  // ----- An inserted system message is invisible

  function Shift(k: nat, i: nat): nat { if i < k then i else i + 1 }

  ghost predicate Inserted(longer: seq<Message>, messages: seq<Message>, k: nat) {
    && k <= |messages| && |longer| == |messages| + 1
    && longer[k].role == SYSTEM
    && forall i :: 0 <= i < |messages| ==> longer[Shift(k, i)] == messages[i]
  }

  lemma InsertAtInserts(messages: seq<Message>, k: nat, m: Message)
    requires k <= |messages| && m.role == SYSTEM
    ensures Inserted(InsertAt(messages, k, m), messages, k)
  {
  }

  lemma InsertedAt(longer: seq<Message>, messages: seq<Message>, k: nat, j: nat)
    requires Inserted(longer, messages, k) && j < |longer| && j != k
    ensures var i := if j < k then j else j - 1; i < |messages| && longer[j] == messages[i] && Shift(k, i) == j
  {
    var i := if j < k then j else j - 1;
    assert longer[Shift(k, i)] == messages[i];
  }

  lemma ShiftLastAssistant(longer: seq<Message>, messages: seq<Message>, k: nat, a: nat)
    requires Inserted(longer, messages, k)
    ensures IsLastAssistant(longer, Shift(k, a)) <==> IsLastAssistant(messages, a)
  {
    if IsLastAssistant(messages, a) {
      assert longer[Shift(k, a)] == messages[a];
      forall j | Shift(k, a) < j < |longer|
        ensures longer[j].role != ASSISTANT
      {
        if j != k { InsertedAt(longer, messages, k, j); }
      }
    }
    if IsLastAssistant(longer, Shift(k, a)) {
      assert longer[Shift(k, a)] == messages[a];
      forall j | a < j < |messages|
        ensures messages[j].role != ASSISTANT
      {
        assert longer[Shift(k, j)] == messages[j];
      }
    }
  }

  lemma ShiftProtected(longer: seq<Message>, messages: seq<Message>, k: nat, i: nat)
    requires Inserted(longer, messages, k)
    ensures IsProtected(longer, Shift(k, i)) <==> IsProtected(messages, i)
  {
    if i < |messages| {
      assert longer[Shift(k, i)] == messages[i];
      if IsProtected(messages, i) {
        var a: nat :| IsLastAssistant(messages, a) && a < i && HasCall(messages[a], ResultId(messages[i]).value);
        ShiftLastAssistant(longer, messages, k, a);
        assert longer[Shift(k, a)] == messages[a];
      }
      if IsProtected(longer, Shift(k, i)) {
        var b: nat :| IsLastAssistant(longer, b) && b < Shift(k, i) && HasCall(longer[b], ResultId(longer[Shift(k, i)]).value);
        InsertedAt(longer, messages, k, b);
        var a := if b < k then b else b - 1;
        ShiftLastAssistant(longer, messages, k, a);
        assert IsLastAssistant(messages, a) && a < i && HasCall(messages[a], ResultId(messages[i]).value);
      }
    }
  }

  lemma ShiftOpen(longer: seq<Message>, messages: seq<Message>, k: nat, i: nat)
    requires Inserted(longer, messages, k)
    ensures IsOpen(longer, Shift(k, i)) <==> IsOpen(messages, i)
  {
    ShiftProtected(longer, messages, k, i);
    if i < |messages| { assert longer[Shift(k, i)] == messages[i]; }
  }

  lemma {:induction false} ShiftOpenFrom(longer: seq<Message>, messages: seq<Message>, k: nat, i: nat)
    requires Inserted(longer, messages, k)
    ensures OpenFrom(longer, if i <= k then i else i + 1) == OpenFrom(messages, i)
    decreases |messages| - i
  {
    if i < |messages| {
      ShiftOpen(longer, messages, k, i);
      ShiftOpenFrom(longer, messages, k, i + 1);
      if i == k { assert !IsOpen(longer, k); }
    } else if i == k {
      assert !IsOpen(longer, k);
      assert OpenFrom(longer, k + 1) == 0;
    }
  }

  lemma ShiftAged(longer: seq<Message>, messages: seq<Message>, k: nat, i: nat)
    requires Inserted(longer, messages, k)
    ensures IsAged(longer, Shift(k, i)) <==> IsAged(messages, i)
  {
    ShiftOpen(longer, messages, k, i);
    ShiftOpenFrom(longer, messages, k, i + 1);
  }

  lemma ShiftPinned(longer: seq<Message>, messages: seq<Message>, k: nat, i: nat)
    requires Inserted(longer, messages, k)
    ensures IsPinned(longer, Shift(k, i)) <==> IsPinned(messages, i)
  {
    if i < |messages| { assert longer[Shift(k, i)] == messages[i]; }
    if IsPinned(messages, i) {
      forall j | Shift(k, i) < j < |longer|
        ensures !IsVerifier(longer[j])
      {
        if j != k { InsertedAt(longer, messages, k, j); }
      }
    }
    if IsPinned(longer, Shift(k, i)) {
      forall j | i < j < |messages|
        ensures !IsVerifier(messages[j])
      {
        assert longer[Shift(k, j)] == messages[j];
      }
    }
  }

  // ----- The second pass

  /** A deferred run_command result behind the pinned failure ages with it. */
  ghost predicate PinLostAt(messages: seq<Message>, p: nat, d: nat) {
    && IsPinned(messages, p) && IsAged(messages, p)
    && p < d && IsAged(messages, d) && IsRunCommand(messages[d]) && IsDeferred(messages[d])
  }

  ghost predicate LosesPin(messages: seq<Message>) {
    exists p: nat, d: nat :: PinLostAt(messages, p, d)
  }

  lemma RewriteVerifier(messages: seq<Message>, i: nat)
    requires i < |messages|
    ensures IsVerifier(Rewrite(messages)[i]) <==>
            IsRunCommand(messages[i]) && (IsSuperseded(messages, i) || !IsDeferred(messages[i]))
  {
    RewriteKeeps(messages, i);
  }

  /** Without the loss, the pin is where it was. */
  lemma PinStays(messages: seq<Message>, p: nat)
    requires IsPinned(messages, p) && IsAged(messages, p) && !LosesPin(messages)
    ensures IsPinned(Rewrite(messages), p)
  {
    RewriteKeeps(messages, p);
    forall j | p < j < |messages|
      ensures !IsVerifier(Rewrite(messages)[j])
    {
      RewriteVerifier(messages, j);
      if IsVerifier(Rewrite(messages)[j]) {
        assert !IsVerifier(messages[j]);
        assert PinLostAt(messages, p, j);
      }
    }
  }

  /** Nothing new is superseded after a pass that keeps the pin. */
  lemma NothingNew(messages: seq<Message>, i: nat)
    requires IsSuperseded(Rewrite(messages), i) && !LosesPin(messages)
    ensures IsSuperseded(messages, i)
  {
    RewriteKeepsAged(messages, i);
    if IsPinned(messages, i) {
      PinStays(messages, i);
      assert false;
    }
  }

  lemma CompactCallTwice(call: Value)
    ensures CompactCall(CompactCall(call)) == CompactCall(call)
  {
    if call.Obj? {
      var once := CompactCall(call);
      var f := At(call, "function");
      if f.Obj? && "function" in call.fields {
        var g := f.fields["arguments" := COMPACTED_ARGUMENTS];
        assert At(once, "function") == Obj(g);
        assert g["arguments" := COMPACTED_ARGUMENTS] == g;
        assert once.fields["function" := Obj(g)] == once.fields;
      }
      assert once.fields["provider_metadata" := Null] == once.fields;
    }
  }

  lemma {:induction false} CompactCallsTwice(calls: seq<Value>, ids: set<string>, fewer: set<string>)
    requires fewer <= ids
    ensures CompactCalls(CompactCalls(calls, ids), fewer) == CompactCalls(calls, ids)
  {
    if calls != [] {
      CompactCallsTwice(calls[1..], ids, fewer);
      var once := CompactCalls(calls, ids);
      assert once[1..] == CompactCalls(calls[1..], ids);
      CompactCallKeepsId(calls[0]);
      CompactCallTwice(calls[0]);
    }
  }

  lemma CompactAssistantTwice(m: Message, ids: set<string>, fewer: set<string>)
    requires fewer <= ids
    ensures CompactAssistant(CompactAssistant(m, ids), fewer) == CompactAssistant(m, ids)
  {
    if m.role == ASSISTANT && CallsOf(m).Some? {
      var once := CompactAssistant(m, ids);
      CompactCallsTwice(CallsOf(m).value, ids, fewer);
      assert CallsOf(once) == Some(CompactCalls(CallsOf(m).value, ids));
      assert once.content.fields["tool_calls" := Arr(CallsOf(once).value)] == once.content.fields;
    }
  }

  /** Every superseded result and every call that belongs to one is already rewritten. */
  ghost predicate SettledAt(messages: seq<Message>, i: nat)
    requires i < |messages|
  {
    && (IsSuperseded(messages, i) ==> CompactResult(messages[i]) == messages[i])
    && CompactAssistant(messages[i], SupersededIds(messages)) == messages[i]
  }

  ghost predicate Settled(messages: seq<Message>) {
    forall i :: 0 <= i < |messages| ==> SettledAt(messages, i)
  }

  lemma {:induction false} SettledNothingNew(messages: seq<Message>, i: nat)
    requires Settled(messages)
    ensures NewlyFrom(messages, i) == 0
    decreases |messages| - i
  {
    if i < |messages| {
      SettledNothingNew(messages, i + 1);
      assert SettledAt(messages, i);
      if IsSuperseded(messages, i) { CompactResultShape(messages[i]); }
    }
  }

  /** A settled history is a fixed point of the pass. */
  lemma SettledIsFixed(messages: seq<Message>)
    requires Settled(messages)
    ensures Compact(messages) == messages
  {
    SettledNothingNew(messages, 0);
    forall i | 0 <= i < |messages|
      ensures Rewrite(messages)[i] == messages[i]
    {
      assert SettledAt(messages, i);
    }
    assert Rewrite(messages) == messages;
  }

  lemma FewerIds(messages: seq<Message>)
    requires !LosesPin(messages)
    ensures SupersededIds(Rewrite(messages)) <= SupersededIds(messages)
  {
    var after := Rewrite(messages);
    forall id | id in SupersededIds(after)
      ensures id in SupersededIds(messages)
    {
      var i :| 0 <= i < |after| && IsSuperseded(after, i) && ResultId(after[i]).value == id;
      NothingNew(messages, i);
      RewriteKeeps(messages, i);
      assert ResultId(messages[i]).value == id;
    }
  }

  lemma RewriteSettles(messages: seq<Message>)
    requires !LosesPin(messages)
    ensures Settled(Rewrite(messages))
  {
    var after := Rewrite(messages);
    FewerIds(messages);
    forall i | 0 <= i < |after|
      ensures SettledAt(after, i)
    {
      if IsSuperseded(after, i) { NothingNew(messages, i); }
      if IsSuperseded(messages, i) {
        CompactResultShape(messages[i]);
        CompactAssistantShape(after[i], SupersededIds(after));
      } else {
        CompactAssistantTwice(messages[i], SupersededIds(messages), SupersededIds(after));
      }
    }
  }

  lemma ShiftSuperseded(longer: seq<Message>, messages: seq<Message>, k: nat, i: nat)
    requires Inserted(longer, messages, k)
    ensures IsSuperseded(longer, Shift(k, i)) <==> IsSuperseded(messages, i)
  {
    ShiftAged(longer, messages, k, i);
    ShiftPinned(longer, messages, k, i);
  }

  lemma ShiftIds(longer: seq<Message>, messages: seq<Message>, k: nat)
    requires Inserted(longer, messages, k)
    ensures SupersededIds(longer) == SupersededIds(messages)
  {
    forall id | id in SupersededIds(longer)
      ensures id in SupersededIds(messages)
    {
      var j :| 0 <= j < |longer| && IsSuperseded(longer, j) && ResultId(longer[j]).value == id;
      InsertedAt(longer, messages, k, j);
      var i := if j < k then j else j - 1;
      ShiftSuperseded(longer, messages, k, i);
      assert IsSuperseded(messages, i) && ResultId(messages[i]).value == id;
    }
    forall id | id in SupersededIds(messages)
      ensures id in SupersededIds(longer)
    {
      var i :| 0 <= i < |messages| && IsSuperseded(messages, i) && ResultId(messages[i]).value == id;
      ShiftSuperseded(longer, messages, k, i);
      assert IsSuperseded(longer, Shift(k, i)) && ResultId(longer[Shift(k, i)]).value == id;
    }
  }

  lemma InsertKeepsSettled(longer: seq<Message>, messages: seq<Message>, k: nat)
    requires Inserted(longer, messages, k) && Settled(messages)
    ensures Settled(longer)
  {
    ShiftIds(longer, messages, k);
    forall j | 0 <= j < |longer|
      ensures SettledAt(longer, j)
    {
      if j != k {
        InsertedAt(longer, messages, k, j);
        var i := if j < k then j else j - 1;
        ShiftSuperseded(longer, messages, k, i);
        assert SettledAt(messages, i);
      } else {
        CompactAssistantShape(longer[k], SupersededIds(longer));
      }
    }
  }

  /** The position a pass moves message `i` to. */
  ghost function Moved(messages: seq<Message>, i: nat): nat {
    var rewritten := Rewrite(messages);
    if |Compact(messages)| > |messages| then Shift(LeadingSystems(rewritten), i) else i
  }

  lemma CompactIsRewriteOrInsert(messages: seq<Message>)
    ensures Compact(messages) == Rewrite(messages) ||
            (|Compact(messages)| == |messages| + 1 &&
             Inserted(Compact(messages), Rewrite(messages), LeadingSystems(Rewrite(messages))))
  {
    InsertAtInserts(Rewrite(messages), LeadingSystems(Rewrite(messages)), MARKER);
  }

  lemma PinnedBecomesSuperseded(messages: seq<Message>, p: nat, d: nat)
    requires PinLostAt(messages, p, d)
    ensures IsSuperseded(Rewrite(messages), p) && Rewrite(messages)[p] == messages[p]
  {
    RewriteKeeps(messages, p);
    RewriteKeepsAged(messages, p);
    assert IsSuperseded(messages, d);
    RewriteVerifier(messages, d);
  }

  /** A superseded failure is rewritten, so a pass over it changes the history. */
  lemma FailureIsRewritten(messages: seq<Message>, p: nat)
    requires p < |messages| && IsSuperseded(messages, p) && HasFailed(messages[p])
    ensures Compact(messages) != messages
  {
    RewriteKeeps(messages, p);
    CompactIsRewriteOrInsert(messages);
  }

  /**
   A second pass changes nothing, if and only if no deferred run_command result ages
   together with the pinned failure before it: compaction erases the mark that kept
   the deferred result from counting as the latest run.
   */
  lemma IdempotentExactly(messages: seq<Message>)
    ensures Compact(Compact(messages)) == Compact(messages) <==> !LosesPin(messages)
  {
    var rewritten, once := Rewrite(messages), Compact(messages);
    var k := LeadingSystems(rewritten);
    CompactIsRewriteOrInsert(messages);
    if !LosesPin(messages) {
      RewriteSettles(messages);
      if once != rewritten { InsertKeepsSettled(once, rewritten, k); }
      SettledIsFixed(once);
    } else {
      var p: nat, d: nat :| PinLostAt(messages, p, d);
      PinnedBecomesSuperseded(messages, p, d);
      if once == rewritten {
        FailureIsRewritten(once, p);
      } else {
        ShiftSuperseded(once, rewritten, k, p);
        assert once[Shift(k, p)] == rewritten[p];
        FailureIsRewritten(once, Shift(k, p));
      }
    }
  }

  /** A failed run, a run deferred by the call limit, and six later results. */
  function Report(name: string, fields: map<string, Value>): Message {
    Message(TOOL, Obj(map["tool_call_id" := Str(name), "name" := Str(name), "result" := Obj(fields)]))
  }

  const FAILED_RUN := Report(RUN_COMMAND, map["exit_code" := Int(1)])
  const DEFERRED_RUN := Report(RUN_COMMAND, map["deferred" := Bool(true), "executed" := Bool(false),
                                                "deferred_reason" := Str(LIMIT_KIND)])
  const READ := Report("read_file", map[])
  const LOSING: seq<Message> := [FAILED_RUN, DEFERRED_RUN, READ, READ, READ, READ, READ, READ]

  lemma {:induction false} AllOpenWithoutAssistant(messages: seq<Message>, i: nat)
    requires forall j :: 0 <= j < |messages| ==> IsToolResult(messages[j])
    ensures i < |messages| ==> IsOpen(messages, i)
    ensures OpenFrom(messages, i) == if i < |messages| then |messages| - i else 0
    decreases |messages| - i
  {
    if i < |messages| { AllOpenWithoutAssistant(messages, i + 1); }
  }

  lemma KindsOfRun()
    ensures IsDeferred(DEFERRED_RUN) && IsRunCommand(DEFERRED_RUN)
    ensures IsVerifier(FAILED_RUN) && HasFailed(FAILED_RUN) && !IsRunCommand(READ)
    ensures IsToolResult(FAILED_RUN) && IsToolResult(DEFERRED_RUN) && IsToolResult(READ)
  {
  }

  lemma RunsThenReads(messages: seq<Message>)
    requires |messages| == 8 && messages[0] == FAILED_RUN && messages[1] == DEFERRED_RUN
    requires forall j :: 2 <= j < 8 ==> messages[j] == READ
    ensures PinLostAt(messages, 0, 1)
  {
    KindsOfRun();
    AllOpenWithoutAssistant(messages, 0);
    AllOpenWithoutAssistant(messages, 1);
    AllOpenWithoutAssistant(messages, 2);
    assert IsPinned(messages, 0);
  }

  /** Compaction is not idempotent on every history. */
  lemma SecondPassCanChange()
    ensures Compact(Compact(LOSING)) != Compact(LOSING)
  {
    RunsThenReads(LOSING);
    IdempotentExactly(LOSING);
  }

  // ----- The pinned failure over many passes

  /** A step of a run that touches the history. */
  datatype Pass = CompactPass | AppendPass(message: Message)

  ghost function Apply(messages: seq<Message>, pass: Pass): seq<Message> {
    match pass
    case CompactPass => Compact(messages)
    case AppendPass(m) => messages + [m]
  }

  ghost function ApplyAll(messages: seq<Message>, passes: seq<Pass>): seq<Message>
    decreases passes
  {
    if passes == [] then messages else ApplyAll(Apply(messages, passes[0]), passes[1..])
  }

  /** Message `f` is a failed run, and no run_command result of any kind follows it. */
  ghost predicate LastRunFailed(messages: seq<Message>, f: nat) {
    && f < |messages| && IsVerifier(messages[f]) && HasFailed(messages[f])
    && forall j :: f < j < |messages| ==> !IsRunCommand(messages[j])
  }

  lemma PassKeepsFailure(messages: seq<Message>, f: nat)
    requires LastRunFailed(messages, f)
    ensures LastRunFailed(Compact(messages), Moved(messages, f))
    ensures Compact(messages)[Moved(messages, f)] == messages[f]
  {
    var rewritten := Rewrite(messages);
    assert IsPinned(messages, f);
    RewriteKeeps(messages, f);
    forall j | f < j < |messages|
      ensures !IsRunCommand(rewritten[j])
    {
      RewriteKeeps(messages, j);
    }
    assert LastRunFailed(rewritten, f);
    CompactIsRewriteOrInsert(messages);
    if Compact(messages) != rewritten {
      var k := LeadingSystems(rewritten);
      ShiftFailure(Compact(messages), rewritten, k, f);
    }
  }

  lemma ShiftFailure(longer: seq<Message>, messages: seq<Message>, k: nat, f: nat)
    requires Inserted(longer, messages, k) && LastRunFailed(messages, f)
    ensures LastRunFailed(longer, Shift(k, f)) && longer[Shift(k, f)] == messages[f]
  {
    assert longer[Shift(k, f)] == messages[f];
    forall j | Shift(k, f) < j < |longer|
      ensures !IsRunCommand(longer[j])
    {
      if j != k { InsertedAt(longer, messages, k, j); }
    }
  }

  /** A failing last run stays verbatim through any passes and any messages that are not runs. */
  lemma {:induction false} FailureSurvives(messages: seq<Message>, f: nat, passes: seq<Pass>) returns (g: nat)
    requires LastRunFailed(messages, f)
    requires forall i :: 0 <= i < |passes| && passes[i].AppendPass? ==> !IsRunCommand(passes[i].message)
    ensures LastRunFailed(ApplyAll(messages, passes), g)
    ensures ApplyAll(messages, passes)[g] == messages[f]
    decreases passes
  {
    g := f;
    if passes != [] {
      var next := Apply(messages, passes[0]);
      var moved := if passes[0].CompactPass? then Moved(messages, f) else f;
      if passes[0].CompactPass? { PassKeepsFailure(messages, f); }
      g := FailureSurvives(next, moved, passes[1..]);
    }
  }

  // ----- How much detail is left, and how many were rewritten

  /** Unprotected results from `i` on that still carry their detail. */
  ghost function DetailedFrom(messages: seq<Message>, i: nat): nat
    decreases |messages| - i
  {
    if i >= |messages| then 0
    else (if IsOpen(messages, i) && !IsCompacted(messages[i]) then 1 else 0) + DetailedFrom(messages, i + 1)
  }

  ghost predicate PinnedFrom(messages: seq<Message>, i: nat) {
    exists p: nat :: i <= p && IsPinned(messages, p)
  }

  lemma OnePin(messages: seq<Message>, p: nat, q: nat)
    requires IsPinned(messages, p) && IsPinned(messages, q)
    ensures p == q
  {
  }

  lemma {:induction false} DetailBound(messages: seq<Message>, i: nat)
    ensures var open := OpenFrom(messages, i);
            DetailedFrom(Rewrite(messages), i)
            <= (if open <= RECENT then open else RECENT) + (if PinnedFrom(messages, i) then 1 else 0)
    decreases |messages| - i
  {
    if i < |messages| {
      DetailBound(messages, i + 1);
      RewriteKeepsOpen(messages, i);
      RewriteKeeps(messages, i);
      if PinnedFrom(messages, i + 1) {
        var p: nat :| i + 1 <= p && IsPinned(messages, p);
        assert PinnedFrom(messages, i);
        if IsPinned(messages, i) { OnePin(messages, p, i); }
      } else if IsPinned(messages, i) {
        assert PinnedFrom(messages, i);
      }
    }
  }

  lemma {:induction false} ShiftDetailed(longer: seq<Message>, messages: seq<Message>, k: nat, i: nat)
    requires Inserted(longer, messages, k)
    ensures DetailedFrom(longer, if i <= k then i else i + 1) == DetailedFrom(messages, i)
    decreases |messages| - i
  {
    if i < |messages| {
      ShiftOpen(longer, messages, k, i);
      assert longer[Shift(k, i)] == messages[i];
      ShiftDetailed(longer, messages, k, i + 1);
    }
    if i == k { assert !IsOpen(longer, k); }
    if i >= |messages| { assert DetailedFrom(longer, |messages| + 1) == 0; }
  }

  /** A pass leaves at most seven detailed unprotected results: the recent six and the pinned failure. */
  lemma AtMostSevenDetailed(messages: seq<Message>)
    ensures DetailedFrom(Compact(messages), 0) <= RECENT + 1
  {
    DetailBound(messages, 0);
    CompactIsRewriteOrInsert(messages);
    if Compact(messages) != Rewrite(messages) {
      ShiftDetailed(Compact(messages), Rewrite(messages), LeadingSystems(Rewrite(messages)), 0);
    }
  }

  /** Positions from `i` on that carry detail before a rewrite and none after it. */
  ghost function LostDetailFrom(before: seq<Message>, after: seq<Message>, i: nat): nat
    requires |before| == |after|
    decreases |before| - i
  {
    if i >= |before| then 0
    else (if !IsCompacted(before[i]) && IsCompacted(after[i]) then 1 else 0) + LostDetailFrom(before, after, i + 1)
  }

  /** The number a pass returns is the number of results that lost their detail in it. */
  lemma {:induction false} ReturnsNewlyCompacted(messages: seq<Message>, i: nat)
    ensures NewlyFrom(messages, i) == LostDetailFrom(messages, Rewrite(messages), i)
    decreases |messages| - i
  {
    if i < |messages| {
      ReturnsNewlyCompacted(messages, i + 1);
      RewriteKeeps(messages, i);
      AssistantKeepsResult(messages[i], SupersededIds(messages));
    }
  }

  lemma AssistantKeepsResult(m: Message, ids: set<string>)
    ensures ResultOf(CompactAssistant(m, ids)) == ResultOf(m)
  {
  }

  /** A call's arguments are rewritten only along with a result of that call. */
  lemma ArgumentsGoWithResult(messages: seq<Message>, i: nat, c: nat) returns (r: nat)
    requires i < |messages| && messages[i].role == ASSISTANT && CallsOf(messages[i]).Some?
    requires c < |CallsOf(messages[i]).value|
    requires CallsOf(Rewrite(messages)[i]).Some? && c < |CallsOf(Rewrite(messages)[i]).value|
    requires CallsOf(Rewrite(messages)[i]).value[c] != CallsOf(messages[i]).value[c]
    ensures r < |messages| && IsSuperseded(messages, r) && IsCompacted(Rewrite(messages)[r])
    ensures ResultId(messages[r]) == CallId(CallsOf(messages[i]).value[c])
  {
    var ids, calls := SupersededIds(messages), CallsOf(messages[i]).value;
    assert CallsOf(Rewrite(messages)[i]) == Some(CompactCalls(calls, ids));
    CompactCallsAt(calls, ids, c);
    r :| 0 <= r < |messages| && IsSuperseded(messages, r) && ResultId(messages[r]).value == CallId(calls[c]).value;
    RewriteKeeps(messages, r);
  }

  /** Some superseded result answers the call. */
  ghost predicate AnswerSuperseded(messages: seq<Message>, call: Value) {
    exists r: nat :: r < |messages| && IsSuperseded(messages, r) && ResultId(messages[r]) == CallId(call)
  }

  /** A call is rewritten exactly when a superseded result has its id, however old that result is. */
  lemma CallRewrittenExactly(messages: seq<Message>, a: nat, c: nat)
    requires a < |messages| && messages[a].role == ASSISTANT && CallsOf(messages[a]).Some?
    requires c < |CallsOf(messages[a]).value|
    ensures CallsOf(Rewrite(messages)[a]).Some? && c < |CallsOf(Rewrite(messages)[a]).value|
    ensures var call := CallsOf(messages[a]).value[c];
            CallsOf(Rewrite(messages)[a]).value[c] == if AnswerSuperseded(messages, call) then CompactCall(call) else call
  {
    var ids, calls := SupersededIds(messages), CallsOf(messages[a]).value;
    assert CallsOf(Rewrite(messages)[a]) == Some(CompactCalls(calls, ids));
    CompactCallsAt(calls, ids, c);
  }

  ghost predicate UniqueResults(messages: seq<Message>) {
    forall i, j :: 0 <= i < j < |messages| && IsToolResult(messages[i]) && IsToolResult(messages[j]) ==>
      ResultId(messages[i]) != ResultId(messages[j])
  }

  /**
   With unique ids, a protected result and the call it answers are verbatim. Without them, a
   superseded result of an older call with the same id would take the arguments of this one.
   */
  lemma ProtectedPairKept(messages: seq<Message>, a: nat, c: nat, i: nat)
    requires UniqueResults(messages) && IsLastAssistant(messages, a) && IsProtected(messages, i)
    requires CallsOf(messages[a]).Some? && c < |CallsOf(messages[a]).value|
    requires CallId(CallsOf(messages[a]).value[c]) == ResultId(messages[i])
    ensures Rewrite(messages)[i] == messages[i]
    ensures CallsOf(Rewrite(messages)[a]).Some? && c < |CallsOf(Rewrite(messages)[a]).value|
    ensures CallsOf(Rewrite(messages)[a]).value[c] == CallsOf(messages[a]).value[c]
  {
    var call := CallsOf(messages[a]).value[c];
    RewriteKeeps(messages, i);
    CallRewrittenExactly(messages, a, c);
    forall r: nat | r < |messages| && IsSuperseded(messages, r)
      ensures ResultId(messages[r]) != CallId(call)
    {
      assert r != i && IsToolResult(messages[r]) && IsToolResult(messages[i]);
    }
  }

  /** Every call of the last assistant message has a protected result. */
  ghost predicate BatchDeferred(messages: seq<Message>, a: nat) {
    && IsLastAssistant(messages, a) && CallsOf(messages[a]).Some?
    && forall c :: 0 <= c < |CallsOf(messages[a]).value| ==> HasProtected(messages, CallsOf(messages[a]).value[c])
  }

  ghost predicate HasProtected(messages: seq<Message>, call: Value) {
    exists i: nat :: IsProtected(messages, i) && ResultId(messages[i]) == CallId(call)
  }

  /** Rewriting no call leaves the message as it is. */
  lemma SameCallsSameMessage(m: Message, ids: set<string>)
    requires m.role == ASSISTANT && CallsOf(m).Some? && CompactCalls(CallsOf(m).value, ids) == CallsOf(m).value
    ensures CompactAssistant(m, ids) == m
  {
    assert m.content.fields["tool_calls" := Arr(CallsOf(m).value)] == m.content.fields;
  }

  lemma RewrittenCalls(messages: seq<Message>, a: nat)
    requires a < |messages| && messages[a].role == ASSISTANT && CallsOf(messages[a]).Some?
    ensures CallsOf(Rewrite(messages)[a]) == Some(CompactCalls(CallsOf(messages[a]).value, SupersededIds(messages)))
  {
  }

  lemma DeferredCallKept(messages: seq<Message>, a: nat, c: nat)
    requires UniqueResults(messages) && BatchDeferred(messages, a) && c < |CallsOf(messages[a]).value|
    ensures CompactCalls(CallsOf(messages[a]).value, SupersededIds(messages))[c] == CallsOf(messages[a]).value[c]
  {
    var call := CallsOf(messages[a]).value[c];
    assert HasProtected(messages, call);
    var i: nat :| IsProtected(messages, i) && ResultId(messages[i]) == CallId(call);
    ProtectedPairKept(messages, a, c, i);
    RewrittenCalls(messages, a);
  }

  /** With unique ids, a batch that was deferred as a whole comes through verbatim, its message included. */
  lemma DeferredBatchKept(messages: seq<Message>, a: nat)
    requires UniqueResults(messages) && BatchDeferred(messages, a)
    ensures Rewrite(messages)[a] == messages[a]
    ensures forall i: nat :: IsProtected(messages, i) ==> Rewrite(messages)[i] == messages[i]
  {
    forall c: nat | c < |CallsOf(messages[a]).value|
      ensures CompactCalls(CallsOf(messages[a]).value, SupersededIds(messages))[c] == CallsOf(messages[a]).value[c]
    {
      DeferredCallKept(messages, a, c);
    }
    assert CompactCalls(CallsOf(messages[a]).value, SupersededIds(messages)) == CallsOf(messages[a]).value;
    SameCallsSameMessage(messages[a], SupersededIds(messages));
    forall i: nat | IsProtected(messages, i)
      ensures Rewrite(messages)[i] == messages[i]
    {
      RewriteKeeps(messages, i);
    }
  }

  /** Seven results, and a call under their id that was deferred. */
  const CALL_AGAIN := Obj(map["id" := Str("read_file"), "function" := Obj(map["arguments" := Str("{}")])])
  const PROPOSAL := Message(ASSISTANT, Obj(map["tool_calls" := Arr([CALL_AGAIN])]))
  const DEFERRED_READ := Report("read_file", map["deferred" := Bool(true), "executed" := Bool(false),
                                                 "deferred_reason" := Str(LIMIT_KIND)])
  const SHARED_ID: seq<Message> := [READ, READ, READ, READ, READ, READ, READ, PROPOSAL, DEFERRED_READ]

  lemma {:induction false} ManyOpen(messages: seq<Message>, i: nat, k: nat)
    requires i <= k <= |messages| && forall j :: i <= j < k ==> IsOpen(messages, j)
    ensures OpenFrom(messages, i) >= k - i
    decreases k - i
  {
    if i < k { ManyOpen(messages, i + 1, k); }
  }

  lemma KindsOfRead()
    ensures IsDeferred(DEFERRED_READ) && ResultId(DEFERRED_READ) == Some("read_file")
    ensures IsToolResult(READ) && !IsDeferred(READ) && !IsRunCommand(READ) && ResultId(READ) == Some("read_file")
    ensures CallsOf(PROPOSAL) == Some([CALL_AGAIN]) && CallId(CALL_AGAIN) == Some("read_file")
    ensures HasCall(PROPOSAL, "read_file")
  {
    assert CallId(CallsOf(PROPOSAL).value[0]) == Some("read_file");
  }

  lemma CompactCallChanges()
    ensures CompactCall(CALL_AGAIN) != CALL_AGAIN
  {
    assert "provider_metadata" in CompactCall(CALL_AGAIN).fields && "provider_metadata" !in CALL_AGAIN.fields;
  }

  lemma FirstReadSuperseded(messages: seq<Message>)
    requires |messages| == 9 && forall j :: 0 <= j < 7 ==> messages[j] == READ
    ensures IsSuperseded(messages, 0)
  {
    KindsOfRead();
    ManyOpen(messages, 1, 7);
  }

  /** A result is protected, and its call loses its arguments all the same to an older result with its id. */
  lemma SharedIdLosesArguments()
    ensures IsProtected(SHARED_ID, 8) && HasCall(SHARED_ID[7], ResultId(SHARED_ID[8]).value)
    ensures Rewrite(SHARED_ID)[8] == SHARED_ID[8] && Rewrite(SHARED_ID)[7] != SHARED_ID[7]
  {
    var messages := SHARED_ID;
    KindsOfRead();
    assert messages[7] == PROPOSAL && messages[8] == DEFERRED_READ;
    assert IsLastAssistant(messages, 7);
    FirstReadSuperseded(messages);
    RewriteKeeps(messages, 8);
    CallRewrittenExactly(messages, 7, 0);
    assert AnswerSuperseded(messages, CALL_AGAIN);
    CompactCallChanges();
  }
}
