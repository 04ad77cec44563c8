/**
 The compaction pass as the engine runs it, over a message vector it edits in place
 (crates/agent-core/src/lib.rs, `compact_superseded_tool_history`).
 */
module HistoryPass {
  import opened Wrappers
  import opened History

  /** `rposition` of the last assistant message. */
  method LastAssistant(messages: seq<Message>) returns (a: Option<nat>)
    ensures a.Some? ==> IsLastAssistant(messages, a.value)
    ensures a.None? ==> forall k: nat :: !IsLastAssistant(messages, k)
  {
    var i := |messages|;
    while i > 0
      invariant 0 <= i <= |messages|
      invariant forall j :: i <= j < |messages| ==> messages[j].role != ASSISTANT
    {
      i := i - 1;
      if messages[i].role == ASSISTANT { return Some(i); }
    }
    return None;
  }

  method CollectCallIds(m: Message) returns (ids: set<string>)
    ensures forall id :: id in ids <==> HasCall(m, id)
  {
    ids := {};
    var calls := CallsOf(m);
    if calls.None? { return; }
    for i := 0 to |calls.value|
      invariant forall id :: id in ids <==> exists k :: 0 <= k < i && CallId(calls.value[k]) == Some(id)
    {
      var id := CallId(calls.value[i]);
      if id.Some? { ids := ids + {id.value}; }
    }
  }

  /** `protected_tool_call_limit_deferred_results`. */
  method ProtectedResults(messages: seq<Message>) returns (protected: set<nat>)
    ensures forall i: nat :: i in protected <==> IsProtected(messages, i)
  {
    protected := {};
    var a := LastAssistant(messages);
    if a.None? { return; }
    var ids := CollectCallIds(messages[a.value]);
    for i := a.value + 1 to |messages|
      invariant forall k: nat :: k in protected <==>
                  (a.value < k < i && IsDeferred(messages[k])
                   && ResultId(messages[k]).Some? && ResultId(messages[k]).value in ids)
    {
      if IsDeferred(messages[i]) && ResultId(messages[i]).Some? && ResultId(messages[i]).value in ids {
        protected := protected + {i};
      }
    }
    forall k: nat
      ensures k in protected <==> IsProtected(messages, k)
    {
      OnlyLastAssistant(messages, a.value, k);
    }
  }

  lemma OnlyLastAssistant(messages: seq<Message>, a: nat, i: nat)
    requires IsLastAssistant(messages, a)
    ensures IsProtected(messages, i) <==>
            a < i < |messages| && IsDeferred(messages[i]) && ResultId(messages[i]).Some?
            && HasCall(messages[a], ResultId(messages[i]).value)
  {
    if IsProtected(messages, i) {
      var b: nat :| IsLastAssistant(messages, b) && b < i && HasCall(messages[b], ResultId(messages[i]).value);
      assert a == b;
    }
  }

  /** `latest_failed_verifier_result`. */
  method LatestFailedVerifier(messages: seq<Message>) returns (pinned: Option<nat>)
    ensures forall i: nat :: pinned == Some(i) <==> IsPinned(messages, i)
  {
    var i := |messages|;
    while i > 0
      invariant 0 <= i <= |messages|
      invariant forall j :: i <= j < |messages| ==> !IsVerifier(messages[j])
    {
      i := i - 1;
      if IsVerifier(messages[i]) {
        assert IsLatestVerifier(messages, i);
        assert forall k: nat :: IsLatestVerifier(messages, k) ==> k == i;
        return if HasFailed(messages[i]) then Some(i) else None;
      }
    }
    return None;
  }

  /** The positions of the unprotected results, with how many follow each. */
  ghost predicate ListsOpen(messages: seq<Message>, list: seq<nat>, upTo: nat) {
    && (forall t :: 0 <= t < |list| ==> list[t] < upTo && IsOpen(messages, list[t]))
    && (forall t :: 0 <= t < |list| ==> OpenFrom(messages, list[t] + 1) == OpenFrom(messages, 0) - t - 1)
    && (forall i :: 0 <= i < upTo && IsOpen(messages, i) ==> i in list)
    && (forall s, t :: 0 <= s < t < |list| ==> list[s] < list[t])
  }

  lemma ListsOpenSnoc(messages: seq<Message>, list: seq<nat>, i: nat)
    requires i < |messages| && ListsOpen(messages, list, i) && IsOpen(messages, i)
    requires |list| + OpenFrom(messages, i) == OpenFrom(messages, 0)
    ensures ListsOpen(messages, list + [i], i + 1)
  {
    var longer := list + [i];
    assert OpenFrom(messages, i + 1) == OpenFrom(messages, 0) - |list| - 1;
    forall j | 0 <= j < i + 1 && IsOpen(messages, j)
      ensures j in longer
    {
      assert j < i ==> j in list;
      assert longer[|list|] == i;
    }
  }

  method CollectOpen(messages: seq<Message>) returns (list: seq<nat>)
    ensures ListsOpen(messages, list, |messages|) && |list| == OpenFrom(messages, 0)
  {
    var protected := ProtectedResults(messages);
    list := [];
    for i := 0 to |messages|
      invariant ListsOpen(messages, list, i)
      invariant |list| + OpenFrom(messages, i) == OpenFrom(messages, 0)
    {
      if IsToolResult(messages[i]) && i !in protected {
        ListsOpenSnoc(messages, list, i);
        list := list + [i];
      } else {
        assert !IsOpen(messages, i);
      }
    }
  }

  /** The superseded positions, in order: all but the last six, without the pinned one. */
  ghost predicate ListsSuperseded(messages: seq<Message>, list: seq<nat>) {
    && (forall t :: 0 <= t < |list| ==> IsSuperseded(messages, list[t]))
    && (forall i: nat :: IsSuperseded(messages, i) ==> i in list)
    && Increasing(list)
  }

  lemma AgedByRank(messages: seq<Message>, list: seq<nat>, t: nat)
    requires ListsOpen(messages, list, |messages|) && |list| == OpenFrom(messages, 0) && t < |list|
    ensures IsAged(messages, list[t]) <==> t < |list| - RECENT
  {
  }

  /** The list without the pinned position. */
  function Unpinned(list: seq<nat>, pinned: Option<nat>): seq<nat> {
    if list == [] then []
    else
      var n := |list| - 1;
      Unpinned(list[..n], pinned) + (if pinned == Some(list[n]) then [] else [list[n]])
  }

  lemma {:induction false} UnpinnedExactly(list: seq<nat>, pinned: Option<nat>)
    requires Increasing(list)
    ensures Increasing(Unpinned(list, pinned))
    ensures forall i :: i in Unpinned(list, pinned) <==> i in list && pinned != Some(i)
  {
    if list != [] {
      var n := |list| - 1;
      UnpinnedExactly(list[..n], pinned);
      var front := Unpinned(list[..n], pinned);
      assert list == list[..n] + [list[n]];
      forall t | 0 <= t < |front|
        ensures front[t] < list[n]
      {
        assert front[t] in front;
      }
    }
  }

  /** The open positions that are old enough, without the pinned one, are the superseded ones. */
  lemma AgedUnpinnedAreSuperseded(messages: seq<Message>, open: seq<nat>, pinned: Option<nat>, i: nat)
    requires ListsOpen(messages, open, |messages|) && |open| == OpenFrom(messages, 0) && |open| > RECENT
    requires forall p: nat :: pinned == Some(p) <==> IsPinned(messages, p)
    ensures IsSuperseded(messages, i) <==> i in open[..|open| - RECENT] && pinned != Some(i)
  {
    AgedAreFirst(messages, open, i);
  }

  /** The aged positions are all but the last six open ones. */
  lemma AgedAreFirst(messages: seq<Message>, open: seq<nat>, i: nat)
    requires ListsOpen(messages, open, |messages|) && |open| == OpenFrom(messages, 0) && |open| > RECENT
    ensures IsAged(messages, i) <==> i in open[..|open| - RECENT]
  {
    var aged := open[..|open| - RECENT];
    if i in aged {
      var t :| 0 <= t < |aged| && aged[t] == i;
      AgedByRank(messages, open, t);
    }
    if IsAged(messages, i) {
      var t :| 0 <= t < |open| && open[t] == i;
      AgedByRank(messages, open, t);
      assert aged[t] == i;
    }
  }

  lemma FewAreNotSuperseded(messages: seq<Message>, open: seq<nat>, i: nat)
    requires ListsOpen(messages, open, |messages|) && |open| == OpenFrom(messages, 0) && |open| <= RECENT
    ensures !IsSuperseded(messages, i)
  {
    if IsOpen(messages, i) {
      var t :| 0 <= t < |open| && open[t] == i;
      AgedByRank(messages, open, t);
    }
  }

  method CollectSuperseded(messages: seq<Message>) returns (older: seq<nat>)
    ensures ListsSuperseded(messages, older)
  {
    var open := CollectOpen(messages);
    older := [];
    if |open| <= RECENT {
      forall i: nat
        ensures !IsSuperseded(messages, i)
      {
        FewAreNotSuperseded(messages, open, i);
      }
      return;
    }
    var pinned := LatestFailedVerifier(messages);
    var aged := open[..|open| - RECENT];
    for t := 0 to |aged|
      invariant older == Unpinned(aged[..t], pinned)
    {
      assert aged[..t + 1][..t] == aged[..t];
      if pinned != Some(aged[t]) { older := older + [aged[t]]; }
    }
    assert aged[..|aged|] == aged;
    UnpinnedExactly(aged, pinned);
    forall i: nat
      ensures i in older <==> IsSuperseded(messages, i)
    {
      AgedUnpinnedAreSuperseded(messages, open, pinned, i);
    }
    assert forall t :: 0 <= t < |older| ==> older[t] in older;
  }

  // ----- Counting

  /** How many of the listed results were not compacted before. */
  function CountNew(messages: seq<Message>, list: seq<nat>): nat
    requires forall t :: 0 <= t < |list| ==> list[t] < |messages|
  {
    if list == [] then 0
    else (if IsCompacted(messages[list[0]]) then 0 else 1) + CountNew(messages, list[1..])
  }

  ghost predicate Increasing(list: seq<nat>) {
    forall s, t :: 0 <= s < t < |list| ==> list[s] < list[t]
  }

  lemma HasMember(list: seq<nat>)
    requires |list| > 0
    ensures exists i :: i in list
  {
    assert list[0] in list;
  }

  /** Strictly increasing lists with the same members are equal. */
  lemma {:induction false} IncreasingUnique(a: seq<nat>, b: seq<nat>)
    requires Increasing(a) && Increasing(b) && forall i :: i in a <==> i in b
    ensures a == b
  {
    if a == [] {
      if |b| > 0 { HasMember(b); }
    } else {
      assert a[0] in a;
      assert b != [];
      assert b[0] in b && a[0] == b[0];
      forall i
        ensures i in a[1..] <==> i in b[1..]
      {
        MemberOfTail(a, i);
        MemberOfTail(b, i);
      }
      IncreasingUnique(a[1..], b[1..]);
    }
  }

  lemma MemberOfTail(a: seq<nat>, i: nat)
    requires Increasing(a) && a != []
    ensures i in a[1..] <==> i in a && i != a[0]
  {
    assert a == [a[0]] + a[1..];
  }

  /** The superseded positions from `from` on. */
  ghost function SupersededFrom(messages: seq<Message>, from: nat): seq<nat>
    decreases |messages| - from
  {
    if from >= |messages| then []
    else (if IsSuperseded(messages, from) then [from] else []) + SupersededFrom(messages, from + 1)
  }

  lemma {:induction false} SupersededFromIncreasing(messages: seq<Message>, from: nat)
    ensures Increasing(SupersededFrom(messages, from))
    ensures forall t :: 0 <= t < |SupersededFrom(messages, from)| ==> from <= SupersededFrom(messages, from)[t] < |messages|
    decreases |messages| - from
  {
    if from < |messages| { SupersededFromIncreasing(messages, from + 1); }
  }

  lemma {:induction false} InSupersededFrom(messages: seq<Message>, from: nat, i: nat)
    ensures i in SupersededFrom(messages, from) <==> from <= i && IsSuperseded(messages, i)
    decreases |messages| - from
  {
    if from < |messages| { InSupersededFrom(messages, from + 1, i); }
  }

  lemma {:induction false} CountNewFrom(messages: seq<Message>, from: nat)
    ensures forall t :: 0 <= t < |SupersededFrom(messages, from)| ==> SupersededFrom(messages, from)[t] < |messages|
    ensures CountNew(messages, SupersededFrom(messages, from)) == NewlyFrom(messages, from)
    decreases |messages| - from
  {
    SupersededFromIncreasing(messages, from);
    if from < |messages| {
      CountNewFrom(messages, from + 1);
      var rest := SupersededFrom(messages, from + 1);
      assert ([from] + rest)[1..] == rest;
      assert [] + rest == rest;
    }
  }

  lemma CountNewIs(messages: seq<Message>, list: seq<nat>)
    requires ListsSuperseded(messages, list)
    ensures CountNew(messages, list) == NewlyFrom(messages, 0)
  {
    SupersededFromIncreasing(messages, 0);
    forall i: nat
      ensures i in list <==> i in SupersededFrom(messages, 0)
    {
      InSupersededFrom(messages, 0, i);
      assert i in list ==> exists t :: 0 <= t < |list| && list[t] == i;
    }
    IncreasingUnique(list, SupersededFrom(messages, 0));
    CountNewFrom(messages, 0);
  }

  lemma {:induction false} CountNewSnoc(messages: seq<Message>, list: seq<nat>, k: nat)
    requires forall t :: 0 <= t < |list| ==> list[t] < |messages|
    requires k < |list|
    ensures CountNew(messages, list[..k + 1]) ==
            CountNew(messages, list[..k]) + (if IsCompacted(messages[list[k]]) then 0 else 1)
  {
    if k == 0 {
      assert list[..1] == [list[0]] && [list[0]][1..] == [];
      assert list[..0] == [];
    } else {
      CountNewSnoc(messages, list[1..], k - 1);
      assert list[..k + 1][1..] == list[1..][..k] && list[..k][1..] == list[1..][..k - 1];
    }
  }

  // ----- The pass

  /** Positions of tool results, in increasing order. */
  ghost predicate ListsResults(messages: seq<Message>, list: seq<nat>) {
    (forall t :: 0 <= t < |list| ==> list[t] < |messages| && IsToolResult(messages[list[t]])) && Increasing(list)
  }

  /** The ids of the first `n` listed results. */
  ghost function ListedIds(messages: seq<Message>, list: seq<nat>, n: nat): set<string>
    requires n <= |list| && ListsResults(messages, list)
  {
    if n == 0 then {} else ListedIds(messages, list, n - 1) + {ResultId(messages[list[n - 1]]).value}
  }

  lemma {:induction false} ListedIdsUpTo(messages: seq<Message>, list: seq<nat>, n: nat, id: string)
    requires n <= |list| && ListsResults(messages, list)
    ensures id in ListedIds(messages, list, n) <==> exists t :: 0 <= t < n && ResultId(messages[list[t]]).value == id
  {
    if n > 0 { ListedIdsUpTo(messages, list, n - 1, id); }
  }

  lemma ListedIdsAreSuperseded(messages: seq<Message>, list: seq<nat>)
    requires ListsSuperseded(messages, list)
    ensures ListedIds(messages, list, |list|) == SupersededIds(messages)
  {
    forall id
      ensures id in ListedIds(messages, list, |list|) <==> id in SupersededIds(messages)
    {
      ListedIdsUpTo(messages, list, |list|, id);
      if id in SupersededIds(messages) {
        var i :| 0 <= i < |messages| && IsSuperseded(messages, i) && ResultId(messages[i]).value == id;
        assert i in list;
      }
    }
  }

  /** The first `n` listed messages compacted, one after the other. */
  ghost function CompactListed(messages: seq<Message>, list: seq<nat>, n: nat): (r: seq<Message>)
    requires n <= |list| && ListsResults(messages, list)
    ensures |r| == |messages|
  {
    if n == 0 then messages
    else CompactListed(messages, list, n - 1)[list[n - 1] := CompactResult(messages[list[n - 1]])]
  }

  lemma {:induction false} CompactListedAt(messages: seq<Message>, list: seq<nat>, n: nat, i: nat)
    requires n <= |list| && ListsResults(messages, list) && i < |messages|
    ensures CompactListed(messages, list, n)[i] == if i in list[..n] then CompactResult(messages[i]) else messages[i]
  {
    if n > 0 {
      CompactListedAt(messages, list, n - 1, i);
      assert list[..n] == list[..n - 1] + [list[n - 1]];
    }
  }

  /** The loop over the superseded results. */
  method RewriteListed(messages: seq<Message>, older: seq<nat>)
    returns (result: seq<Message>, newly: nat, ids: set<string>)
    requires ListsResults(messages, older)
    ensures result == CompactListed(messages, older, |older|)
    ensures newly == CountNew(messages, older) && ids == ListedIds(messages, older, |older|)
  {
    result, newly, ids := messages, 0, {};
    for k := 0 to |older|
      invariant result == CompactListed(messages, older, k)
      invariant newly == CountNew(messages, older[..k])
      invariant ids == ListedIds(messages, older, k)
    {
      var index := older[k];
      CompactListedAt(messages, older, k, index);
      assert result[index] == messages[index];
      CountNewSnoc(messages, older, k);
      if !IsCompacted(result[index]) { newly := newly + 1; }
      ids := ids + {ResultId(result[index]).value};
      result := result[index := CompactResult(result[index])];
    }
    assert older[..|older|] == older;
  }

  method RewriteResults(messages: seq<Message>, older: seq<nat>)
    returns (result: seq<Message>, newly: nat, ids: set<string>)
    requires ListsSuperseded(messages, older)
    ensures |result| == |messages|
    ensures forall i :: 0 <= i < |messages| ==>
              result[i] == (if IsSuperseded(messages, i) then CompactResult(messages[i]) else messages[i])
    ensures newly == NewlyFrom(messages, 0)
    ensures ids == SupersededIds(messages)
  {
    result, newly, ids := RewriteListed(messages, older);
    CountNewIs(messages, older);
    ListedIdsAreSuperseded(messages, older);
    forall i | 0 <= i < |messages|
      ensures result[i] == (if IsSuperseded(messages, i) then CompactResult(messages[i]) else messages[i])
    {
      CompactListedAt(messages, older, |older|, i);
      assert older[..|older|] == older;
      assert i in older <==> IsSuperseded(messages, i);
    }
  }

  /** The loop over the assistant messages. */
  method RewriteCalls(messages: seq<Message>, ids: set<string>) returns (result: seq<Message>)
    ensures |result| == |messages|
    ensures forall i :: 0 <= i < |messages| ==> result[i] == CompactAssistant(messages[i], ids)
  {
    result := messages;
    for k := 0 to |messages|
      invariant |result| == |messages|
      invariant forall i :: 0 <= i < |messages| ==>
                  result[i] == (if i < k then CompactAssistant(messages[i], ids) else messages[i])
    {
      result := result[k := CompactAssistant(result[k], ids)];
    }
  }

  method CompactSupersededToolHistory(messages: seq<Message>) returns (result: seq<Message>, newly: nat)
    ensures result == Compact(messages) && newly == NewlyFrom(messages, 0)
  {
    var older := CollectSuperseded(messages);
    var ids: set<string>;
    result, newly, ids := RewriteResults(messages, older);
    ghost var rewritten := result;
    result := RewriteCalls(result, ids);
    forall i | 0 <= i < |messages|
      ensures result[i] == RewriteAt(messages, i)
    {
      assert result[i] == CompactAssistant(rewritten[i], ids);
    }
    assert result == Rewrite(messages);
    if newly > 0 && !HasMarker(result) {
      result := InsertAt(result, LeadingSystems(result), MARKER);
    }
  }
}
