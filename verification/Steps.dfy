/**
 The queue of step requests a turn works through (crates/agent-core/src/step/request.rs
 and queue.rs).
 */
module Steps {
  import opened Wrappers
  import opened History

  datatype Admission = NewTurn | ActiveOrNewTurn | ActiveOrNextTurn | ActiveTurnOnly

  datatype Target = ToActiveTurn | ToNewTurn | ToNextTurn

  function TargetOf(admission: Admission, hasActiveTurn: bool): Option<Target> {
    match admission
    case NewTurn => Some(ToNewTurn)
    case ActiveOrNewTurn => Some(if hasActiveTurn then ToActiveTurn else ToNewTurn)
    case ActiveOrNextTurn => Some(if hasActiveTurn then ToActiveTurn else ToNextTurn)
    case ActiveTurnOnly => if hasActiveTurn then Some(ToActiveTurn) else None
  }

  datatype State = Pending | Materialized | Aborted

  datatype StepRequest = StepRequest(kind: string, admission: Admission, mergeable: bool, turnScoped: bool,
                                     state: State, messages: seq<Message>)

  function NewRequest(kind: string, messages: seq<Message>, admission: Admission, mergeable: bool, turnScoped: bool)
    : StepRequest
  {
    StepRequest(kind, admission, mergeable, turnScoped, Pending, messages)
  }

  function Continuation(kind: string): StepRequest { NewRequest(kind, [], ActiveTurnOnly, false, true) }

  function Abort(r: StepRequest): StepRequest {
    if r.state.Pending? then r.(state := Aborted) else r
  }

  function Messages(r: StepRequest): seq<Message> {
    if r.state.Aborted? then [] else r.messages
  }

  // ----- Lists of requests

  /** The requests that are not aborted. */
  function Live(items: seq<StepRequest>): seq<StepRequest> {
    if items == [] then [] else (if items[0].state.Aborted? then [] else [items[0]]) + Live(items[1..])
  }

  function Mergeable(items: seq<StepRequest>): seq<StepRequest> {
    if items == [] then [] else (if items[0].mergeable then [items[0]] else []) + Mergeable(items[1..])
  }

  function Drivers(items: seq<StepRequest>): seq<StepRequest> {
    if items == [] then [] else (if items[0].mergeable then [] else [items[0]]) + Drivers(items[1..])
  }

  /** All messages of the requests, in order. */
  function AllMessages(items: seq<StepRequest>): seq<Message> {
    if items == [] then [] else Messages(items[0]) + AllMessages(items[1..])
  }

  datatype Batch = Batch(driver: StepRequest, merged: seq<StepRequest>)

  function BatchMessages(b: Batch): seq<Message> { Messages(b.driver) + AllMessages(b.merged) }

  /** The driver: the first request that cannot be merged, or else the first of all. */
  function DriverIndex(items: seq<StepRequest>): (i: nat)
    requires items != []
    ensures i < |items|
  {
    var d := FirstDriver(items);
    if d < |items| then d else 0
  }

  function FirstDriver(items: seq<StepRequest>): (i: nat)
    ensures i <= |items|
    ensures i < |items| ==> !items[i].mergeable
    ensures forall k :: 0 <= k < i ==> items[k].mergeable
  {
    if items == [] || !items[0].mergeable then 0 else 1 + FirstDriver(items[1..])
  }

  function Others(items: seq<StepRequest>): seq<StepRequest>
    requires items != []
  {
    items[..DriverIndex(items)] + items[DriverIndex(items) + 1..]
  }

  class StepRequestQueue {
    var items: seq<StepRequest>

    constructor ()
      ensures items == []
    {
      items := [];
    }

    method Enqueue(request: StepRequest)
      modifies this
      ensures items == old(items) + [request]
    {
      items := items + [request];
    }

    method Admit(request: StepRequest, hasActiveTurn: bool) returns (target: Option<Target>)
      modifies this
      ensures target == TargetOf(request.admission, hasActiveTurn)
      ensures items == if target.Some? then old(items) + [request] else old(items)
    {
      target := TargetOf(request.admission, hasActiveTurn);
      if target.Some? { Enqueue(request); }
    }

    method HasPendingRequests() returns (b: bool)
      ensures b <==> Live(items) != []
    {
      b := exists i :: 0 <= i < |items| && !items[i].state.Aborted?;
      LiveNonEmpty(items);
    }

    /** One driver, and every mergeable request that is waiting; other drivers keep their order. */
    method TakeNextBatch() returns (batch: Option<Batch>)
      modifies this
      ensures var live := old(Live(items));
              if live == [] then batch == None && items == []
              else batch == Some(Batch(live[DriverIndex(live)], Mergeable(Others(live)))) && items == Drivers(Others(live))
    {
      items := Live(items);
      if items == [] { return None; }
      var driverIndex := DriverIndex(items);
      var driver := items[driverIndex];
      var merged, rest := SplitMergeable(items[..driverIndex] + items[driverIndex + 1..]);
      items := rest;
      return Some(Batch(driver, merged));
    }

    method SplitMergeable(queue: seq<StepRequest>) returns (merged: seq<StepRequest>, rest: seq<StepRequest>)
      ensures merged == Mergeable(queue) && rest == Drivers(queue)
    {
      merged, rest := [], [];
      for k := 0 to |queue|
        invariant merged == Mergeable(queue[..k]) && rest == Drivers(queue[..k])
      {
        assert queue[..k + 1] == queue[..k] + [queue[k]];
        MergeableSnoc(queue[..k], queue[k]);
        DriversSnoc(queue[..k], queue[k]);
        if queue[k].mergeable { merged := merged + [queue[k]]; } else { rest := rest + [queue[k]]; }
      }
      assert queue[..|queue|] == queue;
    }

    method AbortTurnScoped()
      modifies this
      ensures items == KeepsTurn(old(items))
    {
      var kept: seq<StepRequest> := [];
      for k := 0 to |items|
        invariant items == old(items)
        invariant kept == KeepsTurn(items[..k])
      {
        assert items[..k + 1] == items[..k] + [items[k]];
        KeepsTurnSnoc(items[..k], items[k]);
        var r := if items[k].turnScoped then Abort(items[k]) else items[k];
        if !r.state.Aborted? { kept := kept + [r]; }
      }
      assert items[..|items|] == items;
      items := kept;
    }

    /** Works the whole queue off; every waiting message comes out exactly once. */
    method DrainMaterialized() returns (messages: seq<Message>)
      modifies this
      ensures items == []
      ensures multiset(messages) == multiset(old(AllMessages(items)))
    {
      messages := [];
      ghost var goal := multiset(AllMessages(items));
      while true
        invariant multiset(messages) + multiset(AllMessages(items)) == goal
        decreases |items|
      {
        LiveKeepsMessages(items);
        LiveShorter(items);
        ghost var live := Live(items);
        if live != [] { BatchConserves(live); }
        var batch := TakeNextBatch();
        if batch.None? { return; }
        messages := messages + BatchMessages(batch.value);
      }
    }
  }

  /** What survives a cancelled turn. */
  function KeepsTurn(items: seq<StepRequest>): seq<StepRequest> {
    if items == [] then []
    else
      var r := if items[0].turnScoped then Abort(items[0]) else items[0];
      (if r.state.Aborted? then [] else [r]) + KeepsTurn(items[1..])
  }

  /** Exactly the live requests survive that are not both pending and scoped to the turn, unchanged. */
  lemma {:induction false} KeepsTurnExactly(items: seq<StepRequest>, r: StepRequest)
    ensures r in KeepsTurn(items) <==> r in items && !r.state.Aborted? && !(r.turnScoped && r.state.Pending?)
  {
    if items != [] { KeepsTurnExactly(items[1..], r); }
  }

  lemma {:induction false} KeepsTurnSnoc(items: seq<StepRequest>, r: StepRequest)
    ensures KeepsTurn(items + [r]) == KeepsTurn(items) + KeepsTurn([r])
  {
    if items == [] {
      assert items + [r] == [r];
    } else {
      KeepsTurnSnoc(items[1..], r);
      assert (items + [r])[1..] == items[1..] + [r];
    }
  }

  lemma {:induction false} LiveNonEmpty(items: seq<StepRequest>)
    ensures Live(items) != [] <==> exists i :: 0 <= i < |items| && !items[i].state.Aborted?
  {
    if items != [] {
      LiveNonEmpty(items[1..]);
      if i :| 0 <= i < |items| && !items[i].state.Aborted? {
        if i > 0 { assert !items[1..][i - 1].state.Aborted?; }
      }
      if Live(items[1..]) != [] {
        var i :| 0 <= i < |items[1..]| && !items[1..][i].state.Aborted?;
        assert !items[i + 1].state.Aborted?;
      }
    }
  }

  lemma {:induction false} LiveShorter(items: seq<StepRequest>)
    ensures |Live(items)| <= |items|
    ensures forall r :: r in Live(items) ==> r in items && !r.state.Aborted?
  {
    if items != [] { LiveShorter(items[1..]); }
  }

  lemma {:induction false} MergeableSnoc(items: seq<StepRequest>, r: StepRequest)
    ensures Mergeable(items + [r]) == Mergeable(items) + (if r.mergeable then [r] else [])
  {
    if items == [] {
      assert items + [r] == [r] && [r][1..] == [];
    } else {
      MergeableSnoc(items[1..], r);
      assert (items + [r])[1..] == items[1..] + [r] && (items + [r])[0] == items[0];
      Assoc(if items[0].mergeable then [items[0]] else [], Mergeable(items[1..]), if r.mergeable then [r] else []);
    }
  }

  lemma {:induction false} DriversSnoc(items: seq<StepRequest>, r: StepRequest)
    ensures Drivers(items + [r]) == Drivers(items) + (if r.mergeable then [] else [r])
  {
    if items == [] {
      assert items + [r] == [r] && [r][1..] == [];
    } else {
      DriversSnoc(items[1..], r);
      assert (items + [r])[1..] == items[1..] + [r] && (items + [r])[0] == items[0];
      Assoc(if items[0].mergeable then [] else [items[0]], Drivers(items[1..]), if r.mergeable then [] else [r]);
    }
  }

  // ----- Conservation

  lemma Assoc<T>(a: seq<T>, b: seq<T>, c: seq<T>)
    ensures a + (b + c) == a + b + c
  {
  }

  lemma {:induction false} AllMessagesConcat(a: seq<StepRequest>, b: seq<StepRequest>)
    ensures AllMessages(a + b) == AllMessages(a) + AllMessages(b)
  {
    if a == [] {
      assert a + b == b;
      assert [] + AllMessages(b) == AllMessages(b);
    } else {
      AllMessagesConcat(a[1..], b);
      assert (a + b)[1..] == a[1..] + b && (a + b)[0] == a[0];
      Assoc(Messages(a[0]), AllMessages(a[1..]), AllMessages(b));
    }
  }

  lemma {:induction false} LiveKeepsMessages(items: seq<StepRequest>)
    ensures AllMessages(Live(items)) == AllMessages(items)
  {
    if items != [] {
      LiveKeepsMessages(items[1..]);
      var rest := Live(items[1..]);
      if items[0].state.Aborted? {
        assert Live(items) == rest;
        assert [] + AllMessages(items[1..]) == AllMessages(items[1..]);
      } else {
        assert ([items[0]] + rest)[1..] == rest;
      }
    }
  }

  lemma {:induction false} SplitConserves(items: seq<StepRequest>)
    ensures multiset(AllMessages(items)) == multiset(AllMessages(Mergeable(items))) + multiset(AllMessages(Drivers(items)))
    ensures |Mergeable(items)| + |Drivers(items)| == |items|
  {
    if items != [] {
      SplitConserves(items[1..]);
      var m, d := Mergeable(items[1..]), Drivers(items[1..]);
      if items[0].mergeable {
        assert ([items[0]] + m)[1..] == m;
        assert [] + d == d;
      } else {
        assert ([items[0]] + d)[1..] == d;
        assert [] + m == m;
      }
    }
  }

  lemma {:induction false} CutOut(live: seq<StepRequest>, d: nat)
    requires d < |live|
    ensures multiset(AllMessages(live)) == multiset(Messages(live[d])) + multiset(AllMessages(live[..d] + live[d + 1..]))
  {
    var front, back := live[..d], live[d + 1..];
    assert live == front + ([live[d]] + back);
    AllMessagesConcat(front, [live[d]] + back);
    assert ([live[d]] + back)[1..] == back;
    AllMessagesConcat(front, back);
  }

  /** Taking a batch moves messages: none is lost, none is duplicated. */
  lemma BatchConserves(live: seq<StepRequest>)
    requires live != []
    ensures var batch := Batch(live[DriverIndex(live)], Mergeable(Others(live)));
            multiset(AllMessages(live)) == multiset(BatchMessages(batch)) + multiset(AllMessages(Drivers(Others(live))))
    ensures |Drivers(Others(live))| < |live|
  {
    var d, rest := DriverIndex(live), Others(live);
    CutOut(live, d);
    SplitConserves(rest);
    assert multiset(Messages(live[d]) + AllMessages(Mergeable(rest)))
        == multiset(Messages(live[d])) + multiset(AllMessages(Mergeable(rest)));
  }

  /** A mergeable request never waits longer than one batch. */
  lemma {:induction false} NoMergeableIsLeft(items: seq<StepRequest>)
    ensures Mergeable(Drivers(items)) == []
    ensures forall r :: r in items ==> if r.mergeable then r in Mergeable(items) else r in Drivers(items)
  {
    if items != [] {
      NoMergeableIsLeft(items[1..]);
      var d := Drivers(items[1..]);
      if items[0].mergeable {
        assert Drivers(items) == d;
      } else {
        assert ([items[0]] + d)[1..] == d;
        assert Mergeable(Drivers(items)) == [] + Mergeable(d);
      }
    }
  }

  lemma MergeableIsTaken(live: seq<StepRequest>, r: StepRequest)
    requires live != [] && r in live && r.mergeable
    ensures r == live[DriverIndex(live)] || r in Mergeable(Others(live))
    ensures r !in Drivers(Others(live))
  {
    var d := DriverIndex(live);
    var i :| 0 <= i < |live| && live[i] == r;
    if i < d { assert Others(live)[i] == r; }
    if i > d { assert Others(live)[i - 1] == r; }
    NoMergeableIsLeft(Others(live));
    DriversAreDrivers(Others(live));
  }

  lemma {:induction false} DriversAreDrivers(items: seq<StepRequest>)
    ensures forall r :: r in Drivers(items) ==> r in items && !r.mergeable
  {
    if items != [] { DriversAreDrivers(items[1..]); }
  }
}
