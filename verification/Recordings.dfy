/**
 * What a connection has recorded is what the server sent it, after every run: however the answer
 * was cut into reads, and whatever else failed or was misused.
 */
module Recordings {
  import opened Wrappers
  import opened SmartStrHeap
  import opened StdHandler
  import opened Connection
  import opened Run
  import opened LoanScene
  import opened LoanSafety
  import opened HookSafety
  import opened CacheLog

  /** A record hook has a live buffer; on the cache path it holds the answer so far to the query with that key. */
  predicate RecordingExact(heap: Heap, c: Conn, wire: seq<WireEvent>, id: ConnId) {
    c.hook == Record ==>
      && c.recordedData.Some? && c.recordedData.value in heap.live
      && (c.activeWithCache ==>
            heap.live[c.recordedData.value] == Answer(wire, id) && QueryKey(wire, id) == c.hashKey)
  }

  ghost predicate RecordingsExact(w: World) {
    forall id :: id in w.conns ==> RecordingExact(w.process.heap, w.conns[id], w.history.wire, id)
  }

  // ---- the connection that calls ----

  lemma FindSpares(cfg: Config, now: nat, p: Process, key: Key, a: Address)
    requires a in p.heap.live && a < p.heap.next && NotCached(p.table, a)
    ensures
      var heap := Find(cfg, now, p, key).0.heap;
      a in heap.live && heap.live[a] == p.heap.live[a]
  {
  }

  lemma SendRecords(w: World, w': World, id: ConnId, request: Request, pass: bool)
    requires id in w.conns && RecordingExact(w.process.heap, w.conns[id], w.history.wire, id)
    requires ConnSound(w.process, w.conns[id]) && CachePath(request)
    requires SendLeaves(w, id, request, pass, w') && w'.history == ObserveSend(w, id, w.conns[id], request, pass)
    ensures RecordingExact(w'.process.heap, w'.conns[id], w'.history.wire, id)
  {
    if w.conns[id].hook == Record {
      FindSpares(w.cfg, w.now, w.process, request.hashKey.value, w.conns[id].recordedData.value);
    }
    AnswerAfter(w.history.wire, Query(id, Some(request.hashKey.value)), id);
  }

  lemma ReceiveRecords(w: World, id: ConnId, count: nat, reply: Option<Bytes>)
    requires id in w.conns && RecordingExact(w.process.heap, w.conns[id], w.history.wire, id)
    ensures
      var w' := Step(w, On(id, Receive(count, reply)));
      RecordingExact(w'.process.heap, w'.conns[id], w'.history.wire, id)
  {
    if FromServer(count, reply).Some? {
      AnswerAfter(w.history.wire, Data(id, reply.value), id);
    }
  }

  lemma CallerRecords(w: World, id: ConnId, call: Call)
    requires HooksSound(w) && RecordingsExact(w) && id in w.conns
    ensures
      var w' := Step(w, On(id, call));
      RecordingExact(w'.process.heap, w'.conns[id], w'.history.wire, id)
  {
    assert ConnSound(w.process, w.conns[id]);
    match call
    case Send(request, pass) =>
      if CachePath(request) {
        SendDoesLeave(w, id, request, pass);
        SendRecords(w, Step(w, On(id, call)), id, request, pass);
      }
    case Receive(count, reply) => ReceiveRecords(w, id, count, reply);
    case Reap(_) =>
    case Store(_, _) =>
    case Use(_) =>
  }

  // ---- the others ----

  /** A buffer that is neither cached nor the caller's is left alone. */
  lemma SendSpares(w: World, w': World, id: ConnId, request: Request, pass: bool, a: Address)
    requires id in w.conns && ConnSound(w.process, w.conns[id]) && CachePath(request)
    requires SendLeaves(w, id, request, pass, w')
    requires a in w.process.heap.live && a < w.process.heap.next
    requires NotCached(w.process.table, a) && w.conns[id].recordedData != Some(a)
    ensures a in w'.process.heap.live && w'.process.heap.live[a] == w.process.heap.live[a]
  {
    FindSpares(w.cfg, w.now, w.process, request.hashKey.value, a);
    FindIsTame(w.cfg, w.now, w.process, w.conns[id], request.hashKey.value);
  }

  lemma FinishSpares(cfg: Config, now: nat, p: Process, c: Conn, ini: Ini, result: ResultSet, a: Address)
    requires a in p.heap.live && NotCached(p.table, a) && c.recordedData != Some(a)
    ensures
      var heap, heap' := FinishReplay(cfg, now, p, c).heap, FinishRecord(cfg, now, p, c, ini, result).heap;
      a in heap.live && heap.live[a] == p.heap.live[a] && a in heap'.live && heap'.live[a] == p.heap.live[a]
  {
  }

  lemma CallSpares(w: World, id: ConnId, call: Call, a: Address)
    requires id in w.conns && ConnSound(w.process, w.conns[id])
    requires a in w.process.heap.live && a < w.process.heap.next
    requires NotCached(w.process.table, a) && w.conns[id].recordedData != Some(a)
    ensures
      var heap := Step(w, On(id, call)).process.heap;
      a in heap.live && heap.live[a] == w.process.heap.live[a]
  {
    match call
    case Send(request, pass) =>
      if CachePath(request) {
        SendDoesLeave(w, id, request, pass);
        SendSpares(w, Step(w, On(id, call)), id, request, pass, a);
      }
    case Store(ini, result) =>
      if result.Some? {
        FinishSpares(w.cfg, w.now, w.process, w.conns[id], ini, result.value, a);
      }
    case Receive(_, _) =>
    case Reap(_) =>
    case Use(_) =>
  }

  lemma OthersRecord(w: World, w': World, id: ConnId, call: Call, other: ConnId)
    requires HooksSound(w) && RecordingsExact(w) && id in w.conns && other in w.conns && other != id
    requires w' == Step(w, On(id, call))
    ensures other in w'.conns && RecordingExact(w'.process.heap, w'.conns[other], w'.history.wire, other)
  {
    var c := w.conns[other];
    assert ConnSound(w.process, c) && ConnSound(w.process, w.conns[id]);
    assert RecordingExact(w.process.heap, c, w.history.wire, other);
    WireOfOthers(w, w', id, call, other);
    if c.hook == Record {
      CallSpares(w, id, call, c.recordedData.value);
    }
  }

  lemma WireOfOthers(w: World, w': World, id: ConnId, call: Call, other: ConnId)
    requires id in w.conns && other in w.conns && other != id && w' == Step(w, On(id, call))
    ensures other in w'.conns && w'.conns[other] == w.conns[other]
    ensures Answer(w'.history.wire, other) == Answer(w.history.wire, other)
    ensures QueryKey(w'.history.wire, other) == QueryKey(w.history.wire, other)
  {
    var wire, wire' := w.history.wire, w'.history.wire;
    if wire' != wire {
      assert wire' == wire + [wire'[|wire|]] && wire'[|wire|].id == id;
      AnswerAfter(wire, wire'[|wire|], other);
    }
  }

  // ---- the steps, and every run ----

  lemma StepKeepsRecordings(w: World, e: Event)
    requires HooksSound(w) && RecordingsExact(w)
    ensures RecordingsExact(Step(w, e))
  {
    var w' := Step(w, e);
    if e.On? && e.id in w.conns {
      CallerRecords(w, e.id, e.call);
      forall other | other in w.conns && other != e.id
        ensures RecordingExact(w'.process.heap, w'.conns[other], w'.history.wire, other)
      {
        OthersRecord(w, w', e.id, e.call, other);
      }
    } else {
      forall id | id in w'.conns && id in w.conns
        ensures RecordingExact(w'.process.heap, w'.conns[id], w'.history.wire, id)
      {
        assert ConnSound(w.process, w.conns[id]);
        assert RecordingExact(w.process.heap, w.conns[id], w.history.wire, id);
      }
    }
  }

  /**
   * After every run, good or bad, a connection that records a query of the cache path holds exactly the
   * bytes the server sent it since that query. The reads they came in leave no trace.
   */
  lemma {:induction false} RecordingsAreAlwaysExact(cfg: Config, now: nat, events: seq<Event>)
    ensures RecordingsExact(After(Start(cfg, now), events))
    decreases |events|
  {
    if events != [] {
      var last := |events| - 1;
      RecordingsAreAlwaysExact(cfg, now, events[..last]);
      HooksAreAlwaysSound(cfg, now, events[..last]);
      StepKeepsRecordings(After(Start(cfg, now), events[..last]), events[last]);
    }
  }

  // ---- chunks ----

  lemma ReceiveAppends(w: World, id: ConnId, bytes: Bytes)
    requires RecordingsExact(w) && id in w.conns && w.conns[id].hook == Record
    ensures
      var w' := Step(w, On(id, Receive(|bytes|, Some(bytes))));
      var a := w.conns[id].recordedData.value;
      && w'.process == w.process.(heap := w.process.heap.Write(a, w.process.heap.live[a] + bytes))
      && w'.conns == w.conns && w'.cfg == w.cfg
      && w'.history.wire == w.history.wire + [Data(id, bytes)]
  {
    assert RecordingExact(w.process.heap, w.conns[id], w.history.wire, id);
    assert w.conns[id := w.conns[id]] == w.conns;
  }

  /** Two reads of a recording leave what one read of all the bytes leaves. */
  lemma ChunksDoNotMatter(w: World, id: ConnId, x: Bytes, y: Bytes)
    requires HooksSound(w) && RecordingsExact(w) && id in w.conns && w.conns[id].hook == Record
    ensures
      var once := Step(w, On(id, Receive(|x + y|, Some(x + y))));
      var twice := Step(Step(w, On(id, Receive(|x|, Some(x)))), On(id, Receive(|y|, Some(y))));
      && twice.process == once.process && twice.conns == once.conns
      && Answer(twice.history.wire, id) == Answer(once.history.wire, id)
  {
    var e := On(id, Receive(|x|, Some(x)));
    ReceiveAppends(w, id, x + y);
    ReceiveAppends(w, id, x);
    StepKeepsRecordings(w, e);
    ReceiveAppends(Step(w, e), id, y);
    AnswerInTwo(w.history.wire, id, x, y);
    Rewrite(w.process.heap, w.conns[id].recordedData.value, x, y);
  }

  lemma AnswerInTwo(wire: seq<WireEvent>, id: ConnId, x: Bytes, y: Bytes)
    ensures Answer(wire + [Data(id, x)] + [Data(id, y)], id) == Answer(wire + [Data(id, x + y)], id)
  {
    AnswerAfter(wire, Data(id, x + y), id);
    AnswerAfter(wire, Data(id, x), id);
    AnswerAfter(wire + [Data(id, x)], Data(id, y), id);
    assert Answer(wire, id) + x + y == Answer(wire, id) + (x + y);
  }

  lemma Rewrite(heap: Heap, a: Address, x: Bytes, y: Bytes)
    requires a in heap.live
    ensures
      var heap' := heap.Write(a, heap.live[a] + x);
      heap'.Write(a, heap'.live[a] + y) == heap.Write(a, heap.live[a] + (x + y))
  {
    assert heap.live[a] + x + y == heap.live[a] + (x + y);
    assert heap.live[a := heap.live[a] + x][a := heap.live[a] + x + y] == heap.live[a := heap.live[a] + (x + y)];
  }
}
