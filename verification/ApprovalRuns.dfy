/**
 Every interleaving of the operations of the approval queue (clients/vscode/approvals.js).
 Entries are numbered in the order in which they are made; a run of the queue is
 compared with a fold over those numbers.
 */
module ApprovalRuns {
  import opened Wrappers
  import opened Approvals

  /** One step of the outside world; `FinishStep` ends the k-th unfinished call. */
  datatype Step =
    | AddStep(request: Request)
    | ReplaceStep(requests: seq<Request>)
    | RemoveByIdStep(id: string)
    | RemoveByToolCallStep(toolCallId: Option<string>)
    | StartStep(id: string, approved: bool, reviewed: Option<string>)
    | FinishStep(k: nat, success: bool)

  // ----- The fold

  datatype Decision = Decision(entry: nat, approved: bool, reviewed: Option<string>)

  /** All requests that became entries, and the entries that wait, are being decided, or were decided. */
  datatype World = World(
    requests: seq<Request>, pending: seq<nat>, unfinished: seq<nat>, calls: seq<Decision>, succeeded: seq<nat>)

  const EMPTY := World([], [], [], [], [])

  predicate AllBelow(numbers: seq<nat>, bound: nat) {
    forall i :: 0 <= i < |numbers| ==> numbers[i] < bound
  }

  predicate InRange(w: World) {
    && AllBelow(w.pending, |w.requests|) && AllBelow(w.unfinished, |w.requests|) && AllBelow(w.succeeded, |w.requests|)
    && forall c :: c in w.calls ==> c.entry < |w.requests|
  }

  datatype Leave = LeaveId(id: string) | LeaveToolCall(toolCallId: Option<string>) | LeaveEntry(entry: nat)

  predicate Leaves(requests: seq<Request>, leave: Leave, n: nat)
    requires n < |requests|
  {
    match leave
    case LeaveId(id) => requests[n].id == id
    case LeaveToolCall(toolCallId) => requests[n].toolCallId == toolCallId
    case LeaveEntry(entry) => n == entry
  }

  function Stay(requests: seq<Request>, pending: seq<nat>, leave: Leave): (r: seq<nat>)
    requires AllBelow(pending, |requests|)
    ensures AllBelow(r, |requests|)
  {
    if pending == [] then []
    else (if Leaves(requests, leave, pending[0]) then [] else [pending[0]]) + Stay(requests, pending[1..], leave)
  }

  /** The place of the first waiting entry with the id; the number of waiting entries if there is none. */
  function Place(requests: seq<Request>, pending: seq<nat>, id: string): (i: nat)
    requires AllBelow(pending, |requests|)
    ensures i <= |pending| && (i < |pending| ==> requests[pending[i]].id == id)
    ensures forall j :: 0 <= j < i ==> requests[pending[j]].id != id
  {
    if pending == [] || requests[pending[0]].id == id then 0 else 1 + Place(requests, pending[1..], id)
  }

  function Numbered(from: nat, count: nat): (r: seq<nat>)
    ensures |r| == count && forall i :: 0 <= i < count ==> r[i] == from + i
  {
    if count == 0 then [] else Numbered(from, count - 1) + [from + count - 1]
  }

  function Added(w: World, request: Request): (r: World)
    requires InRange(w)
    ensures InRange(r)
  {
    if Place(w.requests, w.pending, request.id) < |w.pending| then w
    else w.(requests := w.requests + [request], pending := w.pending + [|w.requests|])
  }

  function Replaced(w: World, requests: seq<Request>): (r: World)
    requires InRange(w)
    ensures InRange(r)
  {
    w.(requests := w.requests + requests, pending := Numbered(|w.requests|, |requests|))
  }

  function Started(w: World, id: string, approved: bool, reviewed: Option<string>): (r: World)
    requires InRange(w)
    ensures InRange(r)
  {
    var i := Place(w.requests, w.pending, id);
    if i == |w.pending| || w.pending[i] in w.unfinished || !MayCall(w.requests[w.pending[i]], approved, reviewed) then w
    else w.(unfinished := w.unfinished + [w.pending[i]],
            calls := w.calls + [Decision(w.pending[i], approved, reviewed)])
  }

  function Finished(w: World, k: nat, success: bool): (r: World)
    requires InRange(w)
    ensures InRange(r)
  {
    if k >= |w.unfinished| then w
    else
      var entry, rest := w.unfinished[k], w.unfinished[..k] + w.unfinished[k + 1..];
      if success
      then w.(unfinished := rest, pending := Stay(w.requests, w.pending, LeaveEntry(entry)), succeeded := w.succeeded + [entry])
      else w.(unfinished := rest)
  }

  function After(w: World, step: Step): (r: World)
    requires InRange(w)
    ensures InRange(r)
  {
    match step
    case AddStep(request) => Added(w, request)
    case ReplaceStep(requests) => Replaced(w, requests)
    case RemoveByIdStep(id) => if id == "" then w else w.(pending := Stay(w.requests, w.pending, LeaveId(id)))
    case RemoveByToolCallStep(toolCallId) =>
      if toolCallId == None || toolCallId == Some("") then w
      else w.(pending := Stay(w.requests, w.pending, LeaveToolCall(toolCallId)))
    case StartStep(id, approved, reviewed) => Started(w, id, approved, reviewed)
    case FinishStep(k, success) => Finished(w, k, success)
  }

  function Play(w: World, steps: seq<Step>): (r: World)
    requires InRange(w)
    ensures InRange(r)
    decreases |steps|
  {
    if steps == [] then w else Play(After(w, steps[0]), steps[1..])
  }

  // ----- What the fold keeps

  predicate Distinct(numbers: seq<nat>) {
    forall i, j :: 0 <= i < j < |numbers| ==> numbers[i] != numbers[j]
  }

  ghost predicate FirstHeld(w: World)
    requires InRange(w)
  {
    forall j, i :: 0 <= j < i < |w.pending| && w.pending[i] in w.unfinished ==>
      w.requests[w.pending[j]].id != w.requests[w.pending[i]].id
  }

  ghost predicate Sound(w: World) {
    && InRange(w) && Distinct(w.pending) && Distinct(w.unfinished) && Distinct(w.succeeded)
    && (forall n :: n in w.succeeded ==> n !in w.pending && n !in w.unfinished)
    && (forall c :: c in w.calls ==> MayCall(w.requests[c.entry], c.approved, c.reviewed))
    && FirstHeld(w)
  }

  lemma {:induction false} StayProperties(requests: seq<Request>, pending: seq<nat>, leave: Leave)
    requires AllBelow(pending, |requests|) && Distinct(pending)
    ensures Distinct(Stay(requests, pending, leave))
    ensures forall n :: n in Stay(requests, pending, leave) <==> n in pending && !Leaves(requests, leave, n)
  {
    if pending != [] {
      var tail := pending[1..];
      assert pending == [pending[0]] + tail;
      StayProperties(requests, tail, leave);
      assert pending[0] !in Stay(requests, tail, leave);
    }
  }

  lemma {:induction false} StayFirstHeld(w: World, leave: Leave)
    requires InRange(w) && Distinct(w.pending) && FirstHeld(w)
    ensures FirstHeld(w.(pending := Stay(w.requests, w.pending, leave)))
    decreases |w.pending|
  {
    if w.pending != [] {
      var first, tail := w.pending[0], w.pending[1..];
      assert w.pending == [first] + tail;
      StayFirstHeld(w.(pending := tail), leave);
      StayProperties(w.requests, tail, leave);
      var kept := Stay(w.requests, tail, leave);
      forall i | 0 <= i < |kept| && kept[i] in w.unfinished
        ensures w.requests[kept[i]].id != w.requests[first].id
      {
        assert kept[i] in tail;
      }
    }
  }

  lemma StaySound(w: World, leave: Leave)
    requires Sound(w)
    ensures Sound(w.(pending := Stay(w.requests, w.pending, leave)))
  {
    StayProperties(w.requests, w.pending, leave);
    StayFirstHeld(w, leave);
  }

  lemma AddedSound(w: World, request: Request)
    requires Sound(w)
    ensures Sound(Added(w, request))
  {
  }

  lemma ReplacedSound(w: World, requests: seq<Request>)
    requires Sound(w)
    ensures Sound(Replaced(w, requests))
  {
  }

  lemma StartedSound(w: World, id: string, approved: bool, reviewed: Option<string>)
    requires Sound(w)
    ensures Sound(Started(w, id, approved, reviewed))
  {
  }

  lemma FinishedSound(w: World, k: nat, success: bool)
    requires Sound(w)
    ensures Sound(Finished(w, k, success))
  {
    if k < |w.unfinished| {
      var entry, rest := w.unfinished[k], w.unfinished[..k] + w.unfinished[k + 1..];
      assert forall n :: n in rest ==> n in w.unfinished && n != entry;
      assert Distinct(rest);
      assert entry in w.unfinished;
      if success { StaySound(w, LeaveEntry(entry)); StayProperties(w.requests, w.pending, LeaveEntry(entry)); }
    }
  }

  lemma AfterSound(w: World, step: Step)
    requires Sound(w)
    ensures Sound(After(w, step))
  {
    match step
    case AddStep(request) => AddedSound(w, request);
    case ReplaceStep(requests) => ReplacedSound(w, requests);
    case RemoveByIdStep(id) => StaySound(w, LeaveId(id));
    case RemoveByToolCallStep(toolCallId) => StaySound(w, LeaveToolCall(toolCallId));
    case StartStep(id, approved, reviewed) => StartedSound(w, id, approved, reviewed);
    case FinishStep(k, success) => FinishedSound(w, k, success);
  }

  /** Over every interleaving no entry is held or decided twice, and every approving call was allowed. */
  lemma {:induction false} RunsAreSound(w: World, steps: seq<Step>)
    requires Sound(w)
    ensures Sound(Play(w, steps))
    decreases |steps|
  {
    if steps != [] {
      AfterSound(w, steps[0]);
      RunsAreSound(After(w, steps[0]), steps[1..]);
    }
  }

  /** Two unfinished calls share an approval id only when one of their entries has left the queue. */
  lemma SharedIdHasLeft(steps: seq<Step>, a: nat, b: nat)
    requires var w := Play(EMPTY, steps);
             a < b < |w.unfinished| && w.requests[w.unfinished[a]].id == w.requests[w.unfinished[b]].id
    ensures var w := Play(EMPTY, steps); w.unfinished[a] !in w.pending || w.unfinished[b] !in w.pending
  {
    RunsAreSound(EMPTY, steps);
    SharedIdLeft(Play(EMPTY, steps), a, b);
  }

  lemma SharedIdLeft(w: World, a: nat, b: nat)
    requires Sound(w) && a < b < |w.unfinished| && w.requests[w.unfinished[a]].id == w.requests[w.unfinished[b]].id
    ensures w.unfinished[a] !in w.pending || w.unfinished[b] !in w.pending
  {
    assert w.unfinished[a] != w.unfinished[b];
  }

  /** The steps that leave two unfinished calls for one id: the entry is removed while it is being decided. */
  function DecidedTwice(request: Request, reviewed: Option<string>): seq<Step> {
    [AddStep(request), StartStep(request.id, true, reviewed), RemoveByIdStep(request.id),
     AddStep(request), StartStep(request.id, true, reviewed)]
  }

  lemma TwoCallsForOneId(request: Request, reviewed: Option<string>)
    requires request.id != "" && MayCall(request, true, reviewed)
    ensures Play(EMPTY, DecidedTwice(request, reviewed)) ==
            World([request, request], [1], [0, 1], [Decision(0, true, reviewed), Decision(1, true, reviewed)], [])
  {
    var a, s, r := AddStep(request), StartStep(request.id, true, reviewed), RemoveByIdStep(request.id);
    var one := Decision(0, true, reviewed);
    var held := World([request], [0], [0], [one], []);
    var gone, again := World([request], [], [0], [one], []), World([request, request], [1], [0], [one], []);
    StartsFirst(request, reviewed);
    RemovesHeld(request, reviewed);
    AddsSecond(request, one);
    StartsSecond(request, one, reviewed);
    PlayCons(EMPTY, a, [s, r, a, s]);
    PlayCons(After(EMPTY, a), s, [r, a, s]);
    PlayCons(held, r, [a, s]);
    PlayCons(gone, a, [s]);
    PlayCons(again, s, []);
  }

  lemma StartsFirst(request: Request, reviewed: Option<string>)
    requires MayCall(request, true, reviewed)
    ensures After(After(EMPTY, AddStep(request)), StartStep(request.id, true, reviewed))
            == World([request], [0], [0], [Decision(0, true, reviewed)], [])
  {
    assert After(EMPTY, AddStep(request)) == World([request], [0], [], [], []);
  }

  lemma RemovesHeld(request: Request, reviewed: Option<string>)
    requires request.id != ""
    ensures After(World([request], [0], [0], [Decision(0, true, reviewed)], []), RemoveByIdStep(request.id))
            == World([request], [], [0], [Decision(0, true, reviewed)], [])
  {
    assert Stay([request], [0], LeaveId(request.id)) == [];
  }

  lemma AddsSecond(request: Request, one: Decision)
    requires one.entry == 0
    ensures After(World([request], [], [0], [one], []), AddStep(request)) == World([request, request], [1], [0], [one], [])
  {
  }

  lemma StartsSecond(request: Request, one: Decision, reviewed: Option<string>)
    requires MayCall(request, true, reviewed) && one.entry == 0
    ensures After(World([request, request], [1], [0], [one], []), StartStep(request.id, true, reviewed))
            == World([request, request], [1], [0, 1], [one, Decision(1, true, reviewed)], [])
  {
    assert Place([request, request], [1], request.id) == 0;
  }

  lemma PlayCons(w: World, step: Step, rest: seq<Step>)
    requires InRange(w)
    ensures Play(w, [step] + rest) == Play(After(w, step), rest)
  {
    assert ([step] + rest)[1..] == rest;
  }

  // ----- The queue runs like the fold

  /** The entries with the given numbers. */
  ghost predicate Picks(entries: seq<Entry>, born: seq<Entry>, numbers: seq<nat>) {
    && |entries| == |numbers| && AllBelow(numbers, |born|)
    && forall i :: 0 <= i < |numbers| ==> entries[i] == born[numbers[i]]
  }

  ghost function Picked(born: seq<Entry>, numbers: seq<nat>): (r: seq<Entry>)
    requires AllBelow(numbers, |born|)
    ensures Picks(r, born, numbers)
  {
    seq(|numbers|, i requires 0 <= i < |numbers| => born[numbers[i]])
  }

  ghost predicate Records(calls: seq<Call>, born: seq<Entry>, decisions: seq<Decision>) {
    && |calls| == |decisions|
    && (forall i :: 0 <= i < |calls| ==> decisions[i].entry < |born|)
    && (forall i :: 0 <= i < |calls| ==>
          calls[i] == Call(born[decisions[i].entry], decisions[i].approved, decisions[i].reviewed))
  }

  ghost predicate Requests(born: seq<Entry>, requests: seq<Request>) {
    |born| == |requests| && forall n :: 0 <= n < |born| ==> born[n].request == requests[n]
  }

  /** The fields of the queue, as values. */
  datatype Fields = Fields(pending: seq<Entry>, unfinished: seq<Entry>, calls: seq<Call>, succeeded: multiset<Entry>)

  /** Fields that are in the state `w`; `born` are all entries ever made. */
  ghost predicate AreAt(f: Fields, born: seq<Entry>, w: World) {
    && InRange(w) && Unique(born) && Requests(born, w.requests)
    && Picks(f.pending, born, w.pending) && Picks(f.unfinished, born, w.unfinished)
    && Records(f.calls, born, w.calls) && multiset(Picked(born, w.succeeded)) == f.succeeded
  }

  lemma RemoveAt<T>(s: seq<T>, k: nat)
    requires k < |s|
    ensures multiset(s[..k] + s[k + 1..]) == multiset(s) - multiset{s[k]} && s[k] in multiset(s)
  {
    assert s == s[..k] + [s[k]] + s[k + 1..];
  }

  /** The same condition on numbers and on entries. */
  ghost predicate SameDrop(born: seq<Entry>, leave: Leave, drop: Drop) {
    match (leave, drop)
    case (LeaveId(id), ById(id')) => id == id'
    case (LeaveToolCall(toolCallId), ByToolCall(toolCallId')) => toolCallId == toolCallId'
    case (LeaveEntry(n), ByIdentity(entry)) => n < |born| && entry == born[n]
    case _ => false
  }

  lemma {:induction false} StayIsWithout(
      requests: seq<Request>, born: seq<Entry>, numbers: seq<nat>, entries: seq<Entry>, leave: Leave, drop: Drop)
    requires Unique(born) && Requests(born, requests) && Picks(entries, born, numbers) && SameDrop(born, leave, drop)
    ensures Picks(Without(entries, drop), born, Stay(requests, numbers, leave))
    decreases |numbers|
  {
    if numbers != [] {
      StayIsWithout(requests, born, numbers[1..], entries[1..], leave, drop);
      assert Drops(drop, entries[0]) <==> Leaves(requests, leave, numbers[0]);
    }
  }

  /** An entry is held exactly when its number is. */
  lemma HeldNumber(born: seq<Entry>, entries: seq<Entry>, numbers: seq<nat>, n: nat)
    requires Unique(born) && Picks(entries, born, numbers) && n < |born|
    ensures born[n] in entries <==> n in numbers
  {
    if n in numbers {
      var i :| 0 <= i < |numbers| && numbers[i] == n;
      assert entries[i] == born[n];
    }
  }

  lemma PickedMore(born: seq<Entry>, more: seq<Entry>, numbers: seq<nat>)
    requires AllBelow(numbers, |born|)
    ensures Picked(born + more, numbers) == Picked(born, numbers)
  {
  }

  lemma PickedSnoc(born: seq<Entry>, numbers: seq<nat>, n: nat)
    requires AllBelow(numbers, |born|) && n < |born|
    ensures Picked(born, numbers + [n]) == Picked(born, numbers) + [born[n]]
  {
  }

  lemma AddedAt(f: Fields, born: seq<Entry>, w: World, entry: Entry)
    requires AreAt(f, born, w) && entry !in born && Place(w.requests, w.pending, entry.request.id) == |w.pending|
    ensures AreAt(f.(pending := f.pending + [entry]), born + [entry], Added(w, entry.request))
  {
    PickedMore(born, [entry], w.succeeded);
  }

  lemma ReplacedAt(f: Fields, born: seq<Entry>, w: World, entries: seq<Entry>, requests: seq<Request>)
    requires AreAt(f, born, w) && Unique(entries) && Requests(entries, requests) && forall e :: e in entries ==> e !in born
    ensures AreAt(f.(pending := entries), born + entries, Replaced(w, requests))
  {
    PickedMore(born, entries, w.succeeded);
    UniqueConcat(born, entries);
  }

  lemma UniqueConcat(a: seq<Entry>, b: seq<Entry>)
    requires Unique(a) && Unique(b) && forall e :: e in b ==> e !in a
    ensures Unique(a + b)
  {
    var c := a + b;
    forall i, j | 0 <= i < j < |c|
      ensures c[i] != c[j]
    {
      if i < |a| <= j { assert c[i] in a && c[j] in b; }
    }
  }

  lemma StartedAt(f: Fields, born: seq<Entry>, w: World, i: nat, approved: bool, reviewed: Option<string>)
    requires AreAt(f, born, w) && i < |w.pending|
    ensures AreAt(f.(unfinished := f.unfinished + [f.pending[i]],
                     calls := f.calls + [Call(f.pending[i], approved, reviewed)]), born,
                  w.(unfinished := w.unfinished + [w.pending[i]],
                     calls := w.calls + [Decision(w.pending[i], approved, reviewed)]))
  {
  }

  lemma FailedAt(f: Fields, born: seq<Entry>, w: World, k: nat)
    requires AreAt(f, born, w) && k < |w.unfinished|
    ensures AreAt(f.(unfinished := f.unfinished[..k] + f.unfinished[k + 1..]), born, Finished(w, k, false))
  {
  }

  lemma SucceededAt(f: Fields, born: seq<Entry>, w: World, k: nat)
    requires AreAt(f, born, w) && k < |w.unfinished|
    ensures AreAt(f.(unfinished := f.unfinished[..k] + f.unfinished[k + 1..],
                     pending := Without(f.pending, ByIdentity(f.unfinished[k])),
                     succeeded := f.succeeded + multiset{f.unfinished[k]}), born, Finished(w, k, true))
  {
    var n := w.unfinished[k];
    FailedAt(f, born, w, k);
    StayIsWithout(w.requests, born, w.pending, f.pending, LeaveEntry(n), ByIdentity(born[n]));
    PickedSnoc(born, w.succeeded, n);
  }

  lemma FirstIsPlace(f: Fields, born: seq<Entry>, w: World, id: string, i: nat)
    requires AreAt(f, born, w) && i <= |f.pending|
    requires if i < |f.pending| then FirstWithId(f.pending, id, i) else forall e :: e in f.pending ==> e.request.id != id
    ensures Place(w.requests, w.pending, id) == i
  {
    assert forall j :: 0 <= j < |f.pending| ==> w.requests[w.pending[j]] == f.pending[j].request;
  }

  /** The place of the first entry with the id. */
  function FirstPlace(entries: seq<Entry>, id: string): (i: nat)
    ensures i <= |entries|
    ensures if i < |entries| then FirstWithId(entries, id, i) else forall e :: e in entries ==> e.request.id != id
  {
    if entries == [] || entries[0].request.id == id then 0 else 1 + FirstPlace(entries[1..], id)
  }

  lemma FirstPlaceIs(entries: seq<Entry>, id: string, i: nat)
    requires i <= |entries|
    requires if i < |entries| then FirstWithId(entries, id, i) else forall e :: e in entries ==> e.request.id != id
    ensures i == FirstPlace(entries, id)
  {
  }

  /** The fields after a call was started, or not. */
  ghost function StartedFields(f: Fields, i: nat, approved: bool, reviewed: Option<string>): Fields
    requires i <= |f.pending|
  {
    if i == |f.pending| || f.pending[i] in f.unfinished || !MayCall(f.pending[i].request, approved, reviewed) then f
    else f.(unfinished := f.unfinished + [f.pending[i]], calls := f.calls + [Call(f.pending[i], approved, reviewed)])
  }

  lemma StartedLikeWorld(f: Fields, born: seq<Entry>, w: World, id: string, approved: bool, reviewed: Option<string>)
    requires AreAt(f, born, w)
    ensures AreAt(StartedFields(f, Place(w.requests, w.pending, id), approved, reviewed), born,
                  Started(w, id, approved, reviewed))
  {
    var i := Place(w.requests, w.pending, id);
    if i < |w.pending| {
      HeldNumber(born, f.unfinished, w.unfinished, w.pending[i]);
      StartedAt(f, born, w, i, approved, reviewed);
    }
  }

  lemma PlaceIsFirst(f: Fields, born: seq<Entry>, w: World, id: string)
    requires AreAt(f, born, w)
    ensures var i := Place(w.requests, w.pending, id); i < |f.pending| ==> FirstWithId(f.pending, id, i)
    ensures Place(w.requests, w.pending, id) == |w.pending| ==> forall e :: e in f.pending ==> e.request.id != id
  {
    assert forall j :: 0 <= j < |f.pending| ==> f.pending[j].request == w.requests[w.pending[j]];
  }

  lemma AddedLikeWorld(f: Fields, born: seq<Entry>, w: World, request: Request, made: seq<Entry>)
    requires AreAt(f, born, w) && forall e :: e in made ==> e !in born && e.request == request
    requires |made| == if exists e :: e in f.pending && e.request.id == request.id then 0 else 1
    ensures AreAt(f.(pending := f.pending + made), born + made, Added(w, request))
  {
    PlaceIsFirst(f, born, w, request.id);
    if made == [] {
      assert f.pending + made == f.pending && born + made == born;
    } else {
      assert made == [made[0]];
      AddedAt(f, born, w, made[0]);
    }
  }

  /** The fields after the k-th unfinished call ended. */
  ghost function FinishedFields(f: Fields, k: nat, success: bool): Fields
    requires k < |f.unfinished|
  {
    var g := f.(unfinished := f.unfinished[..k] + f.unfinished[k + 1..]);
    if success then g.(pending := Without(f.pending, ByIdentity(f.unfinished[k])),
                       succeeded := f.succeeded + multiset{f.unfinished[k]})
    else g
  }

  lemma FinishedLikeWorld(f: Fields, born: seq<Entry>, w: World, k: nat, success: bool)
    requires AreAt(f, born, w) && k < |f.unfinished|
    ensures AreAt(FinishedFields(f, k, success), born, Finished(w, k, success))
  {
    if success { SucceededAt(f, born, w, k); } else { FailedAt(f, born, w, k); }
  }

  /** The fields after one step; `made` are the entries it makes. */
  ghost function Moved(f: Fields, step: Step, made: seq<Entry>): Fields {
    match step
    case AddStep(_) => f.(pending := f.pending + made)
    case ReplaceStep(_) => f.(pending := made)
    case RemoveByIdStep(id) => if id == "" then f else f.(pending := Without(f.pending, ById(id)))
    case RemoveByToolCallStep(toolCallId) =>
      if toolCallId == None || toolCallId == Some("") then f
      else f.(pending := Without(f.pending, ByToolCall(toolCallId)))
    case StartStep(id, approved, reviewed) => StartedFields(f, FirstPlace(f.pending, id), approved, reviewed)
    case FinishStep(k, success) => if k < |f.unfinished| then FinishedFields(f, k, success) else f
  }

  /** The entries that the step makes. */
  ghost predicate Makes(f: Fields, step: Step, made: seq<Entry>) {
    && Unique(made)
    && match step
       case AddStep(request) =>
         && (forall e :: e in made ==> e.request == request)
         && |made| == if exists e :: e in f.pending && e.request.id == request.id then 0 else 1
       case ReplaceStep(requests) => Requests(made, requests)
       case _ => made == []
  }

  lemma MovedLikeWorld(f: Fields, born: seq<Entry>, w: World, step: Step, made: seq<Entry>)
    requires AreAt(f, born, w) && Makes(f, step, made) && forall e :: e in made ==> e !in born
    ensures AreAt(Moved(f, step, made), born + made, After(w, step))
  {
    match step {
      case AddStep(request) => AddedLikeWorld(f, born, w, request, made);
      case ReplaceStep(requests) => ReplacedAt(f, born, w, made, requests);
      case _ =>
        assert born + made == born;
        OthersLikeWorld(f, born, w, step);
    }
  }

  lemma OthersLikeWorld(f: Fields, born: seq<Entry>, w: World, step: Step)
    requires AreAt(f, born, w) && !step.AddStep? && !step.ReplaceStep?
    ensures AreAt(Moved(f, step, []), born, After(w, step))
  {
    match step {
      case RemoveByIdStep(id) => StayIsWithout(w.requests, born, w.pending, f.pending, LeaveId(id), ById(id));
      case RemoveByToolCallStep(id) =>
        StayIsWithout(w.requests, born, w.pending, f.pending, LeaveToolCall(id), ByToolCall(id));
      case StartStep(id, approved, reviewed) =>
        StartedLikeWorld(f, born, w, id, approved, reviewed);
        FirstIsPlace(f, born, w, id, FirstPlace(f.pending, id));
      case FinishStep(k, success) => if k < |f.unfinished| { FinishedLikeWorld(f, born, w, k, success); }
    }
  }

  /** All steps; `mades` are the entries that each of them makes. */
  ghost function Moves(f: Fields, steps: seq<Step>, mades: seq<seq<Entry>>): Fields
    requires |mades| == |steps|
    decreases |steps|
  {
    if steps == [] then f else Moves(Moved(f, steps[0], mades[0]), steps[1..], mades[1..])
  }

  ghost predicate AllMakes(f: Fields, steps: seq<Step>, mades: seq<seq<Entry>>, known: set<Entry>)
    requires |mades| == |steps|
    decreases |steps|
  {
    steps != [] ==>
      && Makes(f, steps[0], mades[0]) && (forall e :: e in mades[0] ==> e !in known)
      && AllMakes(Moved(f, steps[0], mades[0]), steps[1..], mades[1..], known + Elements(mades[0]))
  }

  ghost function Elements(entries: seq<Entry>): set<Entry> {
    set e | e in entries
  }

  ghost function Flattened(mades: seq<seq<Entry>>): seq<Entry> {
    if mades == [] then [] else mades[0] + Flattened(mades[1..])
  }

  lemma AllMakesHead(f: Fields, steps: seq<Step>, mades: seq<seq<Entry>>, born: seq<Entry>)
    requires |mades| == |steps| > 0 && AllMakes(f, steps, mades, Elements(born))
    ensures Makes(f, steps[0], mades[0]) && forall e :: e in mades[0] ==> e !in born
    ensures AllMakes(Moved(f, steps[0], mades[0]), steps[1..], mades[1..], Elements(born + mades[0]))
  {
    assert Elements(born + mades[0]) == Elements(born) + Elements(mades[0]);
  }

  lemma BornCons(born: seq<Entry>, mades: seq<seq<Entry>>)
    requires mades != []
    ensures born + Flattened(mades) == born + mades[0] + Flattened(mades[1..])
  {
  }

  /** The queue goes where the fold goes, over all steps. */
  lemma {:induction false} MovesLikeWorld(f: Fields, born: seq<Entry>, w: World, steps: seq<Step>, mades: seq<seq<Entry>>)
    requires |mades| == |steps| && AreAt(f, born, w) && AllMakes(f, steps, mades, Elements(born))
    ensures AreAt(Moves(f, steps, mades), born + Flattened(mades), Play(w, steps))
    decreases |steps|
  {
    if steps == [] {
      assert born + Flattened(mades) == born;
    } else {
      AllMakesHead(f, steps, mades, born);
      MovedLikeWorld(f, born, w, steps[0], mades[0]);
      MovesLikeWorld(Moved(f, steps[0], mades[0]), born + mades[0], After(w, steps[0]), steps[1..], mades[1..]);
      BornCons(born, mades);
    }
  }

  // ----- Steps performed on a queue

  method AddEntry(queue: ApprovalQueue, request: Request) returns (ghost made: seq<Entry>)
    requires queue.Valid()
    modifies queue`pending
    ensures queue.Valid() && queue.pending == old(queue.pending) + made
    ensures |made| == if exists e :: e in old(queue.pending) && e.request.id == request.id then 0 else 1
    ensures forall e :: e in made ==> fresh(e) && e.request == request
  {
    queue.Add(request);
    made := queue.pending[|old(queue.pending)|..];
  }

  method PerformChange(queue: ApprovalQueue, unfinished: seq<Entry>, step: Step) returns (ghost made: seq<Entry>)
    requires queue.Valid() && !step.StartStep? && !step.FinishStep?
    modifies queue`pending
    ensures queue.Valid()
    ensures Fields(queue.pending, unfinished, queue.calls, queue.succeeded)
            == Moved(old(Fields(queue.pending, unfinished, queue.calls, queue.succeeded)), step, made)
    ensures Makes(old(Fields(queue.pending, unfinished, queue.calls, queue.succeeded)), step, made)
    ensures forall e :: e in made ==> fresh(e)
  {
    made := [];
    match step {
      case AddStep(request) => made := AddEntry(queue, request);
      case ReplaceStep(requests) =>
        queue.Replace(requests);
        made := queue.pending;
      case RemoveByIdStep(id) => queue.RemoveById(id);
      case RemoveByToolCallStep(toolCallId) => queue.RemoveByToolCall(toolCallId);
    }
  }

  method BeginCall(queue: ApprovalQueue, unfinished: seq<Entry>, id: string, approved: bool, reviewed: Option<string>)
    returns (next: seq<Entry>, ghost at: nat)
    requires queue.Valid() && multiset(unfinished) == queue.inFlight
    modifies queue, queue.pending
    ensures queue.Valid() && multiset(next) == queue.inFlight && at == FirstPlace(old(queue.pending), id)
    ensures Fields(queue.pending, next, queue.calls, queue.succeeded)
            == StartedFields(old(Fields(queue.pending, unfinished, queue.calls, queue.succeeded)), at, approved, reviewed)
  {
    assert forall e :: e in unfinished <==> e in queue.inFlight;
    var started;
    started, at := queue.DecideStart(id, approved, reviewed);
    FirstPlaceIs(queue.pending, id, at);
    next := if started.Calling? then unfinished + [started.entry] else unfinished;
  }

  method EndCall(queue: ApprovalQueue, unfinished: seq<Entry>, k: nat, success: bool) returns (next: seq<Entry>)
    requires queue.Valid() && multiset(unfinished) == queue.inFlight && k < |unfinished|
    modifies queue, unfinished
    ensures queue.Valid() && multiset(next) == queue.inFlight
    ensures Fields(queue.pending, next, queue.calls, queue.succeeded)
            == FinishedFields(old(Fields(queue.pending, unfinished, queue.calls, queue.succeeded)), k, success)
  {
    next := unfinished[..k] + unfinished[k + 1..];
    RemoveAt(unfinished, k);
    queue.DecideEnd(unfinished[k], success);
  }

  /** One step, performed. */
  method Perform(queue: ApprovalQueue, unfinished: seq<Entry>, step: Step) returns (next: seq<Entry>, ghost made: seq<Entry>)
    requires queue.Valid() && multiset(unfinished) == queue.inFlight
    modifies queue, queue.pending, unfinished
    ensures queue.Valid() && multiset(next) == queue.inFlight
    ensures Fields(queue.pending, next, queue.calls, queue.succeeded)
            == Moved(old(Fields(queue.pending, unfinished, queue.calls, queue.succeeded)), step, made)
    ensures Makes(old(Fields(queue.pending, unfinished, queue.calls, queue.succeeded)), step, made)
    ensures forall e :: e in made ==> fresh(e)
  {
    next, made := unfinished, [];
    if step.StartStep? {
      ghost var at;
      next, at := BeginCall(queue, unfinished, step.id, step.approved, step.reviewed);
    } else if step.FinishStep? {
      if step.k < |unfinished| { next := EndCall(queue, unfinished, step.k, step.success); }
    } else {
      made := PerformChange(queue, unfinished, step);
    }
  }

  /** All entries that a step may touch are known. */
  ghost predicate Within(f: Fields, known: set<Entry>) {
    (forall e :: e in f.pending ==> e in known) && (forall e :: e in f.unfinished ==> e in known)
  }

  lemma WithoutInside(entries: seq<Entry>, drop: Drop)
    ensures forall e :: e in Without(entries, drop) ==> e in entries
  {
  }

  lemma MovedWithin(f: Fields, step: Step, made: seq<Entry>, known: set<Entry>)
    requires Within(f, known)
    ensures Within(Moved(f, step, made), known + Elements(made))
  {
    match step {
      case RemoveByIdStep(id) => WithoutInside(f.pending, ById(id));
      case RemoveByToolCallStep(toolCallId) => WithoutInside(f.pending, ByToolCall(toolCallId));
      case FinishStep(k, success) =>
        if k < |f.unfinished| { WithoutInside(f.pending, ByIdentity(f.unfinished[k])); }
      case _ =>
    }
  }

  /** Any interleaving, performed. */
  method Continue(queue: ApprovalQueue, unfinished: seq<Entry>, steps: seq<Step>, ghost known: set<Entry>)
    returns (last: seq<Entry>, ghost mades: seq<seq<Entry>>)
    requires queue.Valid() && multiset(unfinished) == queue.inFlight
    requires Within(Fields(queue.pending, unfinished, queue.calls, queue.succeeded), known)
    modifies queue, known
    ensures queue.Valid() && multiset(last) == queue.inFlight && |mades| == |steps|
    ensures Fields(queue.pending, last, queue.calls, queue.succeeded)
            == Moves(old(Fields(queue.pending, unfinished, queue.calls, queue.succeeded)), steps, mades)
    ensures AllMakes(old(Fields(queue.pending, unfinished, queue.calls, queue.succeeded)), steps, mades, known)
    decreases |steps|
  {
    ghost var f := Fields(queue.pending, unfinished, queue.calls, queue.succeeded);
    last, mades := unfinished, [];
    if steps != [] {
      ghost var made;
      last, made := Perform(queue, unfinished, steps[0]);
      MovedWithin(f, steps[0], made, known);
      last, mades := Continue(queue, last, steps[1..], known + Elements(made));
      mades := [made] + mades;
    }
  }

  /** The queue with its unfinished calls is in the state `w`. */
  ghost predicate Shows(queue: ApprovalQueue, unfinished: seq<Entry>, born: seq<Entry>, w: World)
    reads queue
  {
    AreAt(Fields(queue.pending, unfinished, queue.calls, queue.succeeded), born, w)
  }

  /** Runs any interleaving on a new queue: the invariant holds, and the queue, its calls and decisions are the fold's. */
  method Run(steps: seq<Step>) returns (queue: ApprovalQueue, unfinished: seq<Entry>, ghost born: seq<Entry>)
    ensures fresh(queue) && queue.Valid() && multiset(unfinished) == queue.inFlight
    ensures Shows(queue, unfinished, born, Play(EMPTY, steps)) && Sound(Play(EMPTY, steps))
  {
    queue := new ApprovalQueue();
    ghost var f := Fields(queue.pending, [], queue.calls, queue.succeeded);
    ghost var mades;
    unfinished, mades := Continue(queue, [], steps, {});
    assert Elements([]) == {};
    MovesLikeWorld(f, [], EMPTY, steps, mades);
    born := [] + Flattened(mades);
    RunsAreSound(EMPTY, steps);
  }
}
