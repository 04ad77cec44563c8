/**
 The event subscription of the editor client (clients/vscode/extension.js,
 `subscribe`): reconnect for ever, resume from the stored cursor of the current
 scope, hand every event above the cursor to the handler.
 */
module Subscription {
  import opened Wrappers
  import opened Sse

  // ----- One batch of events

  /** The cursor reached, the events handed on, and whether no event raised. */
  datatype Progress<J> = Progress(after: int, handled: seq<SseEvent<J>>, ok: bool)

  function Absorb<J>(after: int, events: seq<SseEvent<J>>): Progress<J>
    decreases events
  {
    if events == [] then Progress(after, [], true)
    else
      match ReduceEventCursor(after, events[0].id)
      case None => Progress(after, [], false)
      case Some(reduction) =>
        var rest := Absorb(reduction.cursor, events[1..]);
        rest.(handled := (if reduction.accepted then [events[0]] else []) + rest.handled)
  }

  function Continue<J>(first: Progress<J>, rest: Progress<J>): Progress<J> {
    if first.ok then rest.(handled := first.handled + rest.handled) else first
  }

  lemma {:induction false} AbsorbConcat<J>(after: int, a: seq<SseEvent<J>>, b: seq<SseEvent<J>>)
    ensures Absorb(after, a + b) == Continue(Absorb(after, a), Absorb(Absorb(after, a).after, b))
    decreases a
  {
    if a == [] {
      assert a + b == b;
      assert [] + Absorb(after, b).handled == Absorb(after, b).handled;
    } else {
      assert (a + b)[1..] == a[1..] + b;
      var reduction := ReduceEventCursor(after, a[0].id);
      if reduction.Some? {
        AbsorbConcat(reduction.value.cursor, a[1..], b);
        var first := Absorb(reduction.value.cursor, a[1..]);
        var rest := Absorb(first.after, b);
        assert [a[0]] + (first.handled + rest.handled) == [a[0]] + first.handled + rest.handled;
        assert [] + (first.handled + rest.handled) == [] + first.handled + rest.handled;
      }
    }
  }

  lemma AbsorbOne<J>(after: int, event: SseEvent<J>)
    ensures Absorb(after, [event]) ==
            match ReduceEventCursor(after, event.id)
            case None => Progress(after, [], false)
            case Some(r) => Progress(r.cursor, if r.accepted then [event] else [], true)
  {
    assert [event][1..] == [];
  }

  // ----- One connection

  /** What the reader loop of one connection does with the chunks that arrive. */
  function Receive<J>(reader: Reader<J>, after: int, carried: string, chunks: seq<string>): Progress<J>
    decreases chunks
  {
    if chunks == [] then Progress(after, [], true)
    else
      match Drain(reader, carried + chunks[0])
      case Err(_) => Progress(after, [], false)
      case Ok(d) =>
        var first := Absorb(after, d.events);
        Continue(first, Receive(reader, first.after, d.remainder, chunks[1..]))
  }

  lemma {:induction false} ReceiveIsAbsorb<J>(reader: Reader<J>, after: int, carried: string, chunks: seq<string>)
    requires DrainChunks(reader, carried, chunks).Ok?
    ensures Receive(reader, after, carried, chunks) == Absorb(after, DrainChunks(reader, carried, chunks).value.events)
    decreases chunks
  {
    if chunks != [] {
      var d := Drain(reader, carried + chunks[0]).value;
      var rest := DrainChunks(reader, d.remainder, chunks[1..]).value;
      ReceiveIsAbsorb(reader, Absorb(after, d.events).after, d.remainder, chunks[1..]);
      AbsorbConcat(after, d.events, rest.events);
    }
  }

  /** The cursor a scope resumes from. */
  function Stored(cursors: map<string, JsNumber>, scope: string): int {
    if scope in cursors && cursors[scope].Safe? && IsSafeInteger(cursors[scope].n) then cursors[scope].n else 0
  }

  /** A handled event, tagged with the scope whose stream delivered it. */
  datatype Handled<J> = Handled(scope: string, event: SseEvent<J>)

  function Tag<J>(scope: string, events: seq<SseEvent<J>>): seq<Handled<J>> {
    if events == [] then [] else [Handled(scope, events[0])] + Tag(scope, events[1..])
  }

  function InScope<J>(handled: seq<Handled<J>>, scope: string): seq<SseEvent<J>> {
    if handled == [] then []
    else (if handled[0].scope == scope then [handled[0].event] else []) + InScope(handled[1..], scope)
  }

  lemma {:induction false} TagConcat<J>(scope: string, a: seq<SseEvent<J>>, b: seq<SseEvent<J>>)
    ensures Tag(scope, a + b) == Tag(scope, a) + Tag(scope, b)
  {
    if a == [] {
      assert a + b == b;
    } else {
      TagConcat(scope, a[1..], b);
      assert (a + b)[1..] == a[1..] + b;
    }
  }

  lemma {:induction false} InScopeConcat<J>(a: seq<Handled<J>>, b: seq<Handled<J>>, scope: string)
    ensures InScope(a + b, scope) == InScope(a, scope) + InScope(b, scope)
  {
    if a == [] {
      assert a + b == b && [] + InScope(b, scope) == InScope(b, scope);
    } else {
      InScopeConcat(a[1..], b, scope);
      assert (a + b)[1..] == a[1..] + b && (a + b)[0] == a[0];
      var first := if a[0].scope == scope then [a[0].event] else [];
      assert first + (InScope(a[1..], scope) + InScope(b, scope)) == first + InScope(a[1..], scope) + InScope(b, scope);
    }
  }

  lemma {:induction false} InScopeTag<J>(tag: string, events: seq<SseEvent<J>>, scope: string)
    ensures InScope(Tag(tag, events), scope) == if tag == scope then events else []
  {
    if events != [] {
      InScopeTag(tag, events[1..], scope);
      assert Tag(tag, events)[1..] == Tag(tag, events[1..]);
      assert [events[0]] + events[1..] == events;
    }
  }

  /** The stored cursors after progress in one scope. */
  function Store<J>(cursors: map<string, JsNumber>, scope: string, p: Progress<J>): map<string, JsNumber> {
    if p.handled == [] then cursors else cursors[scope := Safe(p.after)]
  }

  // ----- The client object

  class Subscriber<!J> {
    const reader: Reader<J>
    var after: int
    var cursorScope: Option<string>
    var cursors: map<string, JsNumber>
    var handled: seq<Handled<J>>

    /** The local cursor is the stored one of the current scope. */
    ghost predicate Valid()
      reads this
    {
      cursorScope.Some? ==> after == Stored(cursors, cursorScope.value)
    }

    constructor (reader: Reader<J>, cursors: map<string, JsNumber>)
      ensures this.reader == reader && this.cursors == cursors
      ensures cursorScope == None && handled == [] && Valid()
    {
      this.reader := reader;
      this.cursors := cursors;
      after, cursorScope, handled := 0, None, [];
    }

    /** Selecting the scope of a new connection. */
    method Select(scope: string)
      requires Valid()
      modifies this`after, this`cursorScope
      ensures Valid() && cursorScope == Some(scope) && after == Stored(cursors, scope)
    {
      if cursorScope != Some(scope) {
        after := Stored(cursors, scope);
        cursorScope := Some(scope);
      }
    }

    /** The object has made progress `p` in its scope since it held these cursors and events. */
    ghost predicate Advanced(cursors0: map<string, JsNumber>, handled0: seq<Handled<J>>, p: Progress<J>)
      reads this
    {
      && cursorScope.Some? && after == p.after
      && handled == handled0 + Tag(cursorScope.value, p.handled)
      && cursors == Store(cursors0, cursorScope.value, p)
    }

    /** One event: refuse it, skip it, or hand it on and store the cursor. */
    method HandleEvent(event: SseEvent<J>) returns (ok: bool)
      requires Valid() && cursorScope.Some?
      modifies this`after, this`cursors, this`handled
      ensures Valid() && ok == Absorb(old(after), [event]).ok
      ensures Advanced(old(cursors), old(handled), Absorb(old(after), [event]))
    {
      AbsorbOne(after, event);
      assert handled + [] == handled;
      var reduction := ReduceEventCursor(after, event.id);
      if reduction.None? { return false; }
      if reduction.value.accepted {
        assert Tag(cursorScope.value, [event]) == [Handled(cursorScope.value, event)];
        handled := handled + [Handled(cursorScope.value, event)];
        after := reduction.value.cursor;
        cursors := cursors[cursorScope.value := Safe(after)];
      }
      return true;
    }

    /** The loop over the events of one drained chunk; `ok` is false when one raised. */
    method HandleEvents(events: seq<SseEvent<J>>) returns (ok: bool)
      requires Valid() && cursorScope.Some?
      modifies this`after, this`cursors, this`handled
      ensures Valid() && ok == Absorb(old(after), events).ok
      ensures Advanced(old(cursors), old(handled), Absorb(old(after), events))
    {
      ghost var start, cursors0, handled0 := after, cursors, handled;
      assert handled + [] == handled;
      for k := 0 to |events|
        invariant Valid() && Absorb(start, events[..k]).ok
        invariant Advanced(cursors0, handled0, Absorb(start, events[..k]))
      {
        AbsorbSnoc(start, events, k);
        ghost var done, next := Absorb(start, events[..k]), Absorb(after, [events[k]]);
        AbsorbNothing(after, [events[k]]);
        Compose(cursors0, handled0, cursorScope.value, done, next);
        ok := HandleEvent(events[k]);
        if !ok { return; }
      }
      assert events[..|events|] == events;
      return true;
    }

    /** One chunk, drained behind the carried remainder. */
    method HandleChunk(buffer: string, chunk: string) returns (remainder: Option<string>)
      requires Valid() && cursorScope.Some?
      modifies this`after, this`cursors, this`handled
      ensures Valid()
      ensures var d := Drain(reader, buffer + chunk);
              if d.Err? then remainder.None? && Advanced(old(cursors), old(handled), Progress(old(after), [], false))
              else
                && Advanced(old(cursors), old(handled), Absorb(old(after), d.value.events))
                && remainder == (if Absorb(old(after), d.value.events).ok then Some(d.value.remainder) else None)
    {
      var parsed := DrainSse(reader, buffer + chunk);
      if parsed.Err? {
        assert handled + [] == handled;
        return None;
      }
      var ok := HandleEvents(parsed.value.events);
      return if ok then Some(parsed.value.remainder) else None;
    }

    /** One turn of the reconnect loop, until the stream ends, is cut, or something raises. */
    method Connect(scope: string, chunks: seq<string>)
      requires Valid()
      modifies this
      ensures Valid() && cursorScope == Some(scope)
      ensures Advanced(old(cursors), old(handled), Receive(reader, Stored(old(cursors), scope), "", chunks))
    {
      Select(scope);
      ghost var cursors0, handled0 := cursors, handled;
      ghost var goal := Receive(reader, after, "", chunks);
      ghost var done := Progress<J>.Progress(after, [], true);
      var buffer := "";
      assert handled + [] == handled;
      ContinueNothing(goal);
      for k := 0 to |chunks|
        invariant Valid() && cursorScope == Some(scope) && done.ok
        invariant Advanced(cursors0, handled0, done)
        invariant Continue(done, Receive(reader, after, buffer, chunks[k..])) == goal
      {
        ghost var step := ChunkProgress(reader, after, buffer, chunks[k]);
        ReceiveStep(reader, after, buffer, chunks, k, done);
        Compose(cursors0, handled0, scope, done, step);
        var remainder := HandleChunk(buffer, chunks[k]);
        if remainder.None? { return; }
        buffer := remainder.value;
        done := Continue(done, step);
      }
      assert done.handled + [] == done.handled;
    }
  }

  /** The progress one chunk makes. */
  function ChunkProgress<J>(reader: Reader<J>, after: int, buffer: string, chunk: string): Progress<J> {
    match Drain(reader, buffer + chunk)
    case Err(_) => Progress(after, [], false)
    case Ok(d) => Absorb(after, d.events)
  }

  lemma ReceiveStep<J>(reader: Reader<J>, after: int, buffer: string, chunks: seq<string>, k: nat,
                       done: Progress<J>)
    requires k < |chunks| && done.ok
    ensures var step := ChunkProgress(reader, after, buffer, chunks[k]);
            && (step.handled == [] ==> step.after == after)
            && (!step.ok ==> Continue(done, Receive(reader, after, buffer, chunks[k..])) == Continue(done, step))
            && (step.ok ==> Drain(reader, buffer + chunks[k]).Ok?)
            && (step.ok ==>
                  var rest := Drain(reader, buffer + chunks[k]).value.remainder;
                  Continue(done, Receive(reader, after, buffer, chunks[k..])) ==
                  Continue(Continue(done, step), Receive(reader, step.after, rest, chunks[k + 1..])))
  {
    assert chunks[k..][1..] == chunks[k + 1..];
    var step := ChunkProgress(reader, after, buffer, chunks[k]);
    match Drain(reader, buffer + chunks[k]) {
      case Err(_) =>
      case Ok(d) =>
        AbsorbNothing(after, d.events);
        ContinueTwice(done, step, Receive(reader, step.after, d.remainder, chunks[k + 1..]));
    }
  }

  lemma AbsorbSnoc<J>(after: int, events: seq<SseEvent<J>>, k: nat)
    requires k < |events|
    ensures var done := Absorb(after, events[..k]);
            var next := Absorb(done.after, [events[k]]);
            && Absorb(after, events[..k + 1]) == Continue(done, next)
            && (done.ok && !next.ok ==> Absorb(after, events) == Continue(done, next))
  {
    assert events[..k + 1] == events[..k] + [events[k]];
    AbsorbConcat(after, events[..k], [events[k]]);
    assert events == events[..k + 1] + events[k + 1..];
    AbsorbConcat(after, events[..k + 1], events[k + 1..]);
  }

  /** Two steps of progress store and hand on what their combination does. */
  lemma Compose<J>(cursors: map<string, JsNumber>, handled: seq<Handled<J>>, scope: string,
                   first: Progress<J>, next: Progress<J>)
    requires first.ok && (next.handled == [] ==> next.after == first.after)
    ensures var both := Continue(first, next);
            && Store(Store(cursors, scope, first), scope, next) == Store(cursors, scope, both)
            && handled + Tag(scope, first.handled) + Tag(scope, next.handled) == handled + Tag(scope, both.handled)
  {
    TagConcat(scope, first.handled, next.handled);
    assert handled + Tag(scope, first.handled) + Tag(scope, next.handled)
        == handled + (Tag(scope, first.handled) + Tag(scope, next.handled));
  }

  lemma ContinueNothing<J>(p: Progress<J>)
    ensures forall after :: Continue(Progress(after, [], true), p) == p
  {
    assert [] + p.handled == p.handled;
  }

  lemma ContinueTwice<J>(a: Progress<J>, b: Progress<J>, c: Progress<J>)
    ensures Continue(a, Continue(b, c)) == Continue(Continue(a, b), c)
  {
    assert a.handled + (b.handled + c.handled) == a.handled + b.handled + c.handled;
  }

  // ----- The daemon

  ghost predicate Increasing(log: seq<Frame>) {
    && (forall f :: f in log ==> f.Event?)
    && (forall i, j :: 0 <= i < j < |log| ==> log[i].id < log[j].id)
  }

  /** The entries above `low` and up to `high`, in log order. */
  function Between(log: seq<Frame>, low: int, high: int): seq<Frame> {
    if log == [] then []
    else (if log[0].Event? && low < log[0].id <= high then [log[0]] else []) + Between(log[1..], low, high)
  }

  /** No entry lies strictly between the cursor and `f`. */
  ghost predicate IsNext(log: seq<Frame>, cursor: int, f: Frame) {
    f in log && f.Event? && f.id > cursor && forall g :: g in log && g.Event? && cursor < g.id ==> f.id <= g.id
  }

  /**
   What a stream opened at `cursor` may carry: keep-alives, replays of entries at
   or below the cursor reached so far, and the log's next entry, again and again.
   */
  ghost predicate Serves(log: seq<Frame>, cursor: int, frames: seq<Frame>)
    decreases frames
  {
    frames != [] ==>
      var f := frames[0];
      if f.KeepAlive? || f.id <= cursor then Serves(log, cursor, frames[1..])
      else IsNext(log, cursor, f) && Serves(log, f.id, frames[1..])
  }

  lemma {:induction false} BetweenNothing(log: seq<Frame>, low: int, high: int)
    requires high <= low
    ensures Between(log, low, high) == []
  {
    if log != [] { BetweenNothing(log[1..], low, high); }
  }

  lemma {:induction false} BetweenWritable<J>(reader: Reader<J>, log: seq<Frame>, low: int, high: int)
    requires AllWritable(reader, log)
    ensures AllWritable(reader, Between(log, low, high))
    ensures forall f :: f in Between(log, low, high) ==> f in log && f.Event?
  {
    if log != [] { BetweenWritable(reader, log[1..], low, high); }
  }

  lemma {:induction false} BetweenAbove(log: seq<Frame>, low: int, high: int)
    requires forall f :: f in log ==> f.Event? && f.id > high
    ensures Between(log, low, high) == []
  {
    if log != [] {
      assert log[0] in log;
      BetweenAbove(log[1..], low, high);
    }
  }

  lemma IncreasingTail(log: seq<Frame>)
    requires Increasing(log) && log != []
    ensures Increasing(log[1..])
  {
  }

  lemma AllFromFirst(log: seq<Frame>)
    requires Increasing(log) && log != []
    ensures forall f :: f in log ==> f.Event? && log[0].Event? && f.id >= log[0].id
  {
    assert log[0] in log;
  }

  /** The next entry comes first among those above the cursor. */
  lemma {:induction false} BetweenFromNext(log: seq<Frame>, cursor: int, f: Frame, high: int)
    requires Increasing(log) && IsNext(log, cursor, f) && f.id <= high
    ensures Between(log, cursor, high) == [f] + Between(log, f.id, high)
  {
    if log[0] == f {
      BetweenRaise(log[1..], cursor, f.id, high);
    } else {
      assert log[0] in log;
      var i :| 0 <= i < |log| && log[i] == f;
      assert log[0].id < log[i].id;
      assert log[0].id <= cursor;
      assert log[1..][i - 1] == f;
      assert IsNext(log[1..], cursor, f);
      BetweenFromNext(log[1..], cursor, f, high);
    }
  }

  /** Raising the lower bound below every entry changes nothing. */
  lemma {:induction false} BetweenRaise(log: seq<Frame>, low: int, raised: int, high: int)
    requires low <= raised && forall g :: g in log && g.Event? ==> g.id > raised
    ensures Between(log, low, high) == Between(log, raised, high)
  {
    if log != [] {
      assert log[0] in log;
      BetweenRaise(log[1..], low, raised, high);
    }
  }

  lemma {:induction false} EventsOfConcat<J>(reader: Reader<J>, a: seq<Frame>, b: seq<Frame>)
    requires AllWritable(reader, a) && AllWritable(reader, b)
    ensures AllWritable(reader, a + b)
    ensures EventsOf(reader, a + b) == EventsOf(reader, a) + EventsOf(reader, b)
  {
    if a == [] {
      assert a + b == b;
    } else {
      EventsOfConcat(reader, a[1..], b);
      assert (a + b)[1..] == a[1..] + b;
    }
  }

  /** The events at the front of what a stream carries are handled exactly as the log prescribes. */
  lemma {:induction false} ServedEvents<J>(reader: Reader<J>, log: seq<Frame>, cursor: int, frames: seq<Frame>,
                                           events: seq<SseEvent<J>>)
    requires Increasing(log) && AllWritable(reader, log) && AllWritable(reader, frames)
    requires Serves(log, cursor, frames) && 0 <= cursor <= MAX_SAFE
    requires events <= EventsOf(reader, frames)
    ensures var p := Absorb(cursor, events);
            && cursor <= p.after <= MAX_SAFE
            && AllWritable(reader, Between(log, cursor, p.after))
            && p.handled == EventsOf(reader, Between(log, cursor, p.after))
    decreases frames
  {
    var p := Absorb(cursor, events);
    BetweenWritable(reader, log, cursor, p.after);
    if events == [] {
      BetweenNothing(log, cursor, cursor);
    } else {
      var f := frames[0];
      assert f in frames;
      if f.KeepAlive? {
        assert EventsOf(reader, frames) == EventsOf(reader, frames[1..]);
        ServedEvents(reader, log, cursor, frames[1..], events);
      } else {
        var e := EventOf(reader, f);
        assert EventsOf(reader, frames) == [e] + EventsOf(reader, frames[1..]);
        assert events[0] == e && events[1..] <= EventsOf(reader, frames[1..]);
        var next := if f.id <= cursor then cursor else f.id;
        ServedEvents(reader, log, next, frames[1..], events[1..]);
        if f.id > cursor {
          BetweenFromNext(log, cursor, f, p.after);
          assert EventsOf(reader, [f]) == [e] by { assert [f][1..] == []; }
          BetweenWritable(reader, log, f.id, p.after);
          EventsOfConcat(reader, [f], Between(log, f.id, p.after));
        }
      }
    }
  }

  /**
   Everything outside the client: for the n-th connection, the scope in force, the
   frames the daemon sends from a cursor, and how their text reaches the reader.
   */
  datatype World = World(
    scope: nat -> string,
    log: string -> seq<Frame>,
    frames: (nat, string, int) -> seq<Frame>,
    chunks: (nat, string) -> seq<string>)

  /** Every log is increasing and writable, every stream serves it, every delivery is a prefix of the stream. */
  ghost predicate Faithful<J>(world: World, reader: Reader<J>) {
    && (forall s :: Increasing(world.log(s)) && AllWritable(reader, world.log(s)))
    && (forall n, s, c :: AllWritable(reader, world.frames(n, s, c)) && Serves(world.log(s), c, world.frames(n, s, c)))
    && (forall n, text :: Concat(world.chunks(n, text)) <= text)
  }

  /** The progress of one connection to a faithful daemon. */
  lemma ConnectionProgress<J>(world: World, reader: Reader<J>, n: nat, scope: string, cursor: int)
    requires Faithful(world, reader) && IsSafeInteger(cursor)
    ensures var chunks := world.chunks(n, Encode(world.frames(n, scope, cursor)));
            var p := Receive(reader, cursor, "", chunks);
            && cursor <= p.after && IsSafeInteger(p.after)
            && AllWritable(reader, Between(world.log(scope), cursor, p.after))
            && p.handled == EventsOf(reader, Between(world.log(scope), cursor, p.after))
            && (p.handled == [] ==> p.after == cursor)
  {
    var frames := world.frames(n, scope, cursor);
    var chunks := world.chunks(n, Encode(frames));
    CutStream(reader, frames, chunks);
    ReceiveIsAbsorb(reader, cursor, "", chunks);
    var events := DrainChunks(reader, "", chunks).value.events;
    AbsorbNothing(cursor, events);
    if cursor >= 0 {
      ServedEvents(reader, world.log(scope), cursor, frames, events);
    } else {
      BetweenNothing(world.log(scope), cursor, cursor);
    }
  }

  lemma {:induction false} AbsorbNothing<J>(cursor: int, events: seq<SseEvent<J>>)
    ensures Absorb(cursor, events).handled == [] ==> Absorb(cursor, events).after == cursor
    ensures cursor < 0 ==> Absorb(cursor, events).handled == [] && Absorb(cursor, events).after == cursor
    decreases events
  {
    if events != [] {
      var reduction := ReduceEventCursor(cursor, events[0].id);
      if reduction.Some? { AbsorbNothing(reduction.value.cursor, events[1..]); }
    }
  }

  lemma {:induction false} BetweenJoin(log: seq<Frame>, low: int, mid: int, high: int)
    requires low <= mid <= high && Increasing(log)
    ensures Between(log, low, high) == Between(log, low, mid) + Between(log, mid, high)
  {
    if log != [] {
      assert log[0] in log;
      IncreasingTail(log);
      BetweenJoin(log[1..], low, mid, high);
      var first := if low < log[0].id <= high then [log[0]] else [];
      if log[0].id > mid {
        AllFromFirst(log);
        BetweenAbove(log, low, mid);
        BetweenAbove(log[1..], low, mid);
        Regroup(first, [], Between(log[1..], mid, high));
      } else {
        Regroup(first, Between(log[1..], low, mid), Between(log[1..], mid, high));
      }
    }
  }

  lemma Regroup<T>(a: seq<T>, b: seq<T>, c: seq<T>)
    ensures a + (b + c) == a + b + c && a + ([] + c) == a + c && [] + (a + c) == a + c && [] + c == c
  {
  }

  lemma BetweenEventsJoin<J>(reader: Reader<J>, log: seq<Frame>, low: int, mid: int, high: int)
    requires low <= mid <= high && Increasing(log) && AllWritable(reader, log)
    ensures AllWritable(reader, Between(log, low, mid)) && AllWritable(reader, Between(log, mid, high))
    ensures AllWritable(reader, Between(log, low, high))
    ensures EventsOf(reader, Between(log, low, high))
            == EventsOf(reader, Between(log, low, mid)) + EventsOf(reader, Between(log, mid, high))
  {
    BetweenWritable(reader, log, low, mid);
    BetweenWritable(reader, log, mid, high);
    BetweenJoin(log, low, mid, high);
    EventsOfConcat(reader, Between(log, low, mid), Between(log, mid, high));
  }

  /** The events of a scope's log above `low` and up to `high`. */
  ghost function LogEvents<J>(world: World, reader: Reader<J>, scope: string, low: int, high: int): seq<SseEvent<J>>
    requires Faithful(world, reader)
  {
    BetweenWritable(reader, world.log(scope), low, high);
    EventsOf(reader, Between(world.log(scope), low, high))
  }

  /** What the client has handled of every scope, and where that scope now stands. */
  ghost predicate Caught<J>(world: World, reader: Reader<J>, start: map<string, JsNumber>,
                            cursors: map<string, JsNumber>, handled: seq<Handled<J>>, scope: string)
    requires Faithful(world, reader)
  {
    && Stored(start, scope) <= Stored(cursors, scope)
    && InScope(handled, scope) == LogEvents(world, reader, scope, Stored(start, scope), Stored(cursors, scope))
  }

  lemma StoredAfter<J>(cursors: map<string, JsNumber>, current: string, p: Progress<J>, scope: string)
    requires p.handled == [] ==> p.after == Stored(cursors, current)
    requires IsSafeInteger(p.after)
    ensures Stored(Store(cursors, current, p), scope) == if scope == current then p.after else Stored(cursors, scope)
  {
  }

  /** One connection keeps every scope caught up. */
  lemma ConnectionKeeps<J>(world: World, reader: Reader<J>, start: map<string, JsNumber>,
                           cursors: map<string, JsNumber>, handled: seq<Handled<J>>,
                           n: nat, current: string, scope: string)
    requires Faithful(world, reader)
    requires Caught(world, reader, start, cursors, handled, scope)
    ensures var cursor := Stored(cursors, current);
            var p := Receive(reader, cursor, "", world.chunks(n, Encode(world.frames(n, current, cursor))));
            && Stored(cursors, scope) <= Stored(Store(cursors, current, p), scope)
            && Caught(world, reader, start, Store(cursors, current, p), handled + Tag(current, p.handled), scope)
  {
    var cursor := Stored(cursors, current);
    var p := Receive(reader, cursor, "", world.chunks(n, Encode(world.frames(n, current, cursor))));
    ConnectionProgress(world, reader, n, current, cursor);
    InScopeConcat(handled, Tag(current, p.handled), scope);
    InScopeTag(current, p.handled, scope);
    StoredAfter(cursors, current, p, scope);
    if scope == current {
      BetweenEventsJoin(reader, world.log(scope), Stored(start, scope), cursor, p.after);
    } else {
      assert InScope(handled, scope) + [] == InScope(handled, scope);
    }
  }

  /**
   Over any number of connections, cut anywhere, chunked anyhow, with replays and with
   changes of scope: for every scope the handled events are exactly the log entries above
   the cursor it started from and up to its present one, in order, each once; and no
   cursor ever moves back.
   */
  method Subscribe<J>(world: World, client: Subscriber<J>, connections: nat)
    requires client.Valid() && client.handled == []
    requires Faithful(world, client.reader)
    modifies client
    ensures client.Valid()
    ensures forall s :: Caught(world, client.reader, old(client.cursors), client.cursors, client.handled, s)
  {
    ghost var start := client.cursors;
    forall s
      ensures Caught(world, client.reader, start, client.cursors, client.handled, s)
    {
      BetweenNothing(world.log(s), Stored(start, s), Stored(start, s));
    }
    for n := 0 to connections
      invariant client.Valid()
      invariant forall s :: Caught(world, client.reader, start, client.cursors, client.handled, s)
    {
      var scope := world.scope(n);
      client.Select(scope);
      var text := Encode(world.frames(n, scope, client.after));
      forall s
        ensures var p := Receive(client.reader, client.after, "", world.chunks(n, text));
                Caught(world, client.reader, start, Store(client.cursors, scope, p),
                       client.handled + Tag(scope, p.handled), s)
      {
        ConnectionKeeps(world, client.reader, start, client.cursors, client.handled, n, scope, s);
      }
      client.Connect(scope, world.chunks(n, text));
    }
  }
}
