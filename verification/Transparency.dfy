/**
 * End-to-end transparency: what a connection is given in replay mode is what a server once
 * answered, to some connection, to a query with the same key.
 */
module Transparency {
  import opened Wrappers
  import opened SmartStrHeap
  import opened StdHandler
  import opened Connection
  import opened Run
  import opened LoanScene
  import opened LoanSafety
  import opened HookSafety
  import opened CacheLog
  import opened Recordings
  import opened Refinement

  function Recorded(heap: Heap, c: Conn): Bytes {
    if c.recordedData.Some? then heap.Read(c.recordedData.value) else []
  }

  /** The add a grant goes back to. */
  function Source(log: seq<LogItem>, grant: Grant): Option<nat> {
    if grant.logLength <= |log| then Latest(log[..grant.logLength], grant.key) else None
  }

  predicate ReplayerMatches(w: World, c: Conn, h: History, id: ConnId) {
    c.hook == Replay ==>
      && id in h.grants && id in h.replayed
      && var grant := h.grants[id];
      c.hashKey == Some(grant.key) && Source(h.log, grant).Some? && grant.time <= w.now &&
      var item := h.log[Source(h.log, grant).value];
      && Recorded(w.process.heap, c) == item.bytes && c.position <= |item.bytes|
      && h.replayed[id] == item.bytes[..c.position]
      && item.addedAt <= grant.time
      && (!w.cfg.slamDefense ==> grant.time < Deadline(item))
  }

  ghost predicate LogGenuine(now: nat, h: History) {
    forall j :: 0 <= j < |h.log| && h.log[j].Added? ==> Genuine(h.wire, h.log[j]) && h.log[j].addedAt <= now
  }

  ghost predicate Transparent(w: World) {
    && LogGenuine(w.now, w.history)
    && (forall id :: id in w.conns ==> ReplayerMatches(w, w.conns[id], w.history, id))
  }

  // ---- connections that do nothing ----

  /** Nothing about the connection in the longer history, and the same recorded data. */
  lemma IdleKeepsMatch(w: World, w': World, id: ConnId, c: Conn, c': Conn)
    requires ReplayerMatches(w, c, w.history, id)
    requires c'.hook == c.hook && c'.hashKey == c.hashKey && c'.position == c.position
    requires c.hook != Original ==> Recorded(w'.process.heap, c') == Recorded(w.process.heap, c)
    requires w'.cfg == w.cfg && w.now <= w'.now
    requires w'.history.log == w.history.log || exists item :: w'.history.log == w.history.log + [item]
    requires id in w.history.grants ==> id in w'.history.grants && w'.history.grants[id] == w.history.grants[id]
    requires id in w.history.replayed ==> id in w'.history.replayed && w'.history.replayed[id] == w.history.replayed[id]
    ensures ReplayerMatches(w', c', w'.history, id)
  {
    if c.hook == Replay {
      var grant := w.history.grants[id];
      assert w'.history.log[..grant.logLength] == w.history.log[..grant.logLength];
    }
  }

  lemma OthersKeepContent(w: World, w': World, id: ConnId, other: ConnId)
    requires SafeWorld(w') && HooksSound(w) && id in w.conns && other in w.conns && other != id
    requires other in w'.conns && w'.conns[other] == w.conns[other] && w.conns[other].hook != Original
    requires Tame(w.process, w.conns[id], w'.process)
    ensures Recorded(w'.process.heap, w.conns[other]) == Recorded(w.process.heap, w.conns[other])
  {
    assert ConnSound(w.process, w.conns[other]);
    assert ConnSafe(SceneOf(w'), w'.conns[other]);
  }

  // ---- the log ----

  lemma GenuineLater(wire: seq<WireEvent>, wire': seq<WireEvent>, item: LogItem)
    requires item.Added? && Genuine(wire, item) && wire <= wire'
    ensures Genuine(wire', item)
  {
    assert wire'[..item.wireLength] == wire[..item.wireLength];
  }

  lemma LogStaysGenuine(w: World, w': World)
    requires LogGenuine(w.now, w.history) && w.now <= w'.now && w.history.wire <= w'.history.wire
    requires w'.history.log == w.history.log || exists item ::
               w'.history.log == w.history.log + [item] &&
               (item.Added? ==> Genuine(w'.history.wire, item) && item.addedAt <= w'.now)
    ensures LogGenuine(w'.now, w'.history)
  {
    forall j | 0 <= j < |w'.history.log| && w'.history.log[j].Added?
      ensures Genuine(w'.history.wire, w'.history.log[j]) && w'.history.log[j].addedAt <= w'.now
    {
      if j < |w.history.log| {
        assert w'.history.log[j] == w.history.log[j];
        GenuineLater(w.history.wire, w'.history.wire, w.history.log[j]);
      }
    }
  }

  lemma CallKeepsLogGenuine(w: World, w': World, id: ConnId, call: Call)
    requires id in w.conns && w' == Step(w, On(id, call))
    requires LogGenuine(w.now, w.history) && RecordingExact(w.process.heap, w.conns[id], w.history.wire, id)
    ensures LogGenuine(w'.now, w'.history)
  {
    if call.Store? && Adds(w, w.conns[id], call.ini, call.result) {
      var item := w'.history.log[|w.history.log|];
      assert w.history.wire[..|w.history.wire|] == w.history.wire;
      assert Genuine(w.history.wire, item);
    }
    LogStaysGenuine(w, w');
  }

  lemma StepKeepsLogGenuine(w: World, e: Event)
    requires LogGenuine(w.now, w.history) && RecordingsExact(w) && Forward(w, e)
    ensures LogGenuine(Step(w, e).now, Step(w, e).history)
  {
    if e.On? && e.id in w.conns {
      assert RecordingExact(w.process.heap, w.conns[e.id], w.history.wire, e.id);
      CallKeepsLogGenuine(w, Step(w, e), e.id, e.call);
    } else {
      LogStaysGenuine(w, Step(w, e));
    }
  }

  /** Whatever goes wrong in a run, all that is ever added to the cache is a server's full answer to that key. */
  lemma {:induction false} OnlyAnswersAreAdded(cfg: Config, now: nat, events: seq<Event>)
    requires ForwardRun(Start(cfg, now), events)
    ensures var w := After(Start(cfg, now), events); LogGenuine(w.now, w.history)
    decreases |events|
  {
    if events != [] {
      var last := |events| - 1;
      OnlyAnswersAreAdded(cfg, now, events[..last]);
      RecordingsAreAlwaysExact(cfg, now, events[..last]);
      StepKeepsLogGenuine(After(Start(cfg, now), events[..last]), events[last]);
    }
  }

  // ---- the connection that calls ----

  lemma SendKeepsMatching(w: World, w': World, id: ConnId, request: Request, pass: bool)
    requires SafeWorld(w) && TableMatches(w) && id in w.conns && CachePath(request) && Armed(w.conns[id])
    requires LogGenuine(w.now, w.history)
    requires SendLeaves(w, id, request, pass, w') && SafeWorld(w')
    requires w'.now == w.now && w'.history == ObserveSend(w, id, w.conns[id], request, pass)
    requires pass && Found(w, request.hashKey.value).Some? ==> w'.conns[id].position == 0
    ensures ReplayerMatches(w', w'.conns[id], w'.history, id)
  {
    var key, c' := request.hashKey.value, w'.conns[id];
    if pass {
      if Found(w, key).Some? {
        assert KeyMatches(w.cfg, w.now, w.process, w.history.log, key);
        MatchingFindAsPredicted(w, key);
        assert w'.history.log[..|w.history.log|] == w.history.log;
      }
    }
  }

  lemma ReceiveKeepsMatching(w: World, w': World, id: ConnId, count: nat, reply: Option<Bytes>)
    requires SafeWorld(w) && id in w.conns && w' == Step(w, On(id, Receive(count, reply)))
    requires ReplayerMatches(w, w.conns[id], w.history, id)
    ensures ReplayerMatches(w', w'.conns[id], w'.history, id)
  {
    var c := w.conns[id];
    assert ConnSafe(SceneOf(w), c);
    if c.hook == Replay {
      ReplayReadKeepsMatching(w, w', id, count, reply);
    }
  }

  lemma ReplayReadIs(p: Process, c: Conn, count: nat, reply: Option<Bytes>)
    requires c.hook == Replay && c.recordedData.Some? && c.recordedData.value in p.heap.live
    requires c.position <= |p.heap.live[c.recordedData.value]|
    ensures
      var data := p.heap.live[c.recordedData.value];
      ReceiveData(p, c, count, reply) ==
      if c.position + count <= |data| then
        (p, c.(position := c.position + count), Some(data[c.position..c.position + count]))
      else (p, c, None)
  {
  }

  lemma ReplayReadKeepsMatching(w: World, w': World, id: ConnId, count: nat, reply: Option<Bytes>)
    requires SafeWorld(w) && id in w.conns && w' == Step(w, On(id, Receive(count, reply)))
    requires w.conns[id].hook == Replay && ConnSafe(SceneOf(w), w.conns[id])
    requires ReplayerMatches(w, w.conns[id], w.history, id)
    ensures ReplayerMatches(w', w'.conns[id], w'.history, id)
  {
    var c := w.conns[id];
    var data := w.process.heap.live[c.recordedData.value];
    ReplayReadIs(w.process, c, count, reply);
    if c.position + count <= |data| {
      assert data[..c.position] + data[c.position..c.position + count] == data[..c.position + count];
    }
  }

  lemma OtherCallKeepsMatching(w: World, w': World, id: ConnId, call: Call)
    requires SafeWorld(w) && id in w.conns && w' == Step(w, On(id, call)) && ConnSafe(SceneOf(w), w.conns[id])
    requires !call.Receive? && (call.Send? ==> !CachePath(call.request))
    requires ReplayerMatches(w, w.conns[id], w.history, id)
    ensures ReplayerMatches(w', w'.conns[id], w'.history, id)
  {
    if w'.conns[id].hook != Original {
      IdleKeepsMatch(w, w', id, w.conns[id], w'.conns[id]);
    }
  }

  lemma CallerKeepsMatching(w: World, w': World, id: ConnId, call: Call)
    requires SafeWorld(w) && HooksSound(w) && TableMatches(w) && Transparent(w) && id in w.conns
    requires w' == Step(w, On(id, call)) && SafeWorld(w')
    ensures ReplayerMatches(w', w'.conns[id], w'.history, id)
  {
    assert ConnSafe(SceneOf(w), w.conns[id]);
    if call.Send? && CachePath(call.request) {
      SendDoesLeave(w, id, call.request, call.pass);
      SendKeepsMatching(w, w', id, call.request, call.pass);
    } else if call.Receive? {
      ReceiveKeepsMatching(w, w', id, call.count, call.reply);
    } else {
      OtherCallKeepsMatching(w, w', id, call);
    }
  }

  // ---- the steps ----

  /** What the history of one call says about another connection: nothing. */
  lemma OthersUnobserved(w: World, w': World, id: ConnId, call: Call, other: ConnId)
    requires id in w.conns && other in w.conns && other != id && w' == Step(w, On(id, call))
    ensures w'.conns[other] == w.conns[other] && w'.cfg == w.cfg && w'.now == w.now
    ensures w'.history.log == w.history.log || exists item :: w'.history.log == w.history.log + [item]
    ensures other in w.history.grants ==>
              other in w'.history.grants && w'.history.grants[other] == w.history.grants[other]
    ensures other in w.history.replayed ==>
              other in w'.history.replayed && w'.history.replayed[other] == w.history.replayed[other]
  {
  }

  lemma CallKeepsTransparent(w: World, id: ConnId, call: Call)
    requires SafeWorld(w) && HooksSound(w) && RecordingsExact(w) && TableMatches(w) && Transparent(w) && id in w.conns
    requires SafeWorld(Step(w, On(id, call)))
    ensures Transparent(Step(w, On(id, call)))
  {
    var w' := Step(w, On(id, call));
    assert RecordingExact(w.process.heap, w.conns[id], w.history.wire, id);
    CallKeepsLogGenuine(w, w', id, call);
    CallerKeepsMatching(w, w', id, call);
    CallIsTame(w, id, call);
    forall other | other in w'.conns && other != id
      ensures ReplayerMatches(w', w'.conns[other], w'.history, other)
    {
      OthersUnobserved(w, w', id, call, other);
      if w.conns[other].hook != Original {
        OthersKeepContent(w, w', id, other);
      }
      IdleKeepsMatch(w, w', other, w.conns[other], w.conns[other]);
    }
  }

  /** A step of the process itself: no call, so nobody's hook or buffer moves. */
  lemma ProcessKeepsTransparent(w: World, w': World)
    requires Transparent(w) && SafeWorld(w') && w'.cfg == w.cfg && w.now <= w'.now
    requires forall id :: id in w'.conns ==>
               w'.conns[id] == if id in w.conns then w.conns[id] else NEW_CONN
    requires forall a :: a in w'.process.heap.live ==>
               a in w.process.heap.live && w'.process.heap.live[a] == w.process.heap.live[a]
    requires w'.history.wire == w.history.wire && w'.history.grants == w.history.grants
    requires w'.history.replayed == w.history.replayed
    requires w'.history.log == w.history.log || w'.history.log == w.history.log + [Cleared]
    ensures Transparent(w')
  {
    LogStaysGenuine(w, w');
    forall id | id in w'.conns
      ensures ReplayerMatches(w', w'.conns[id], w'.history, id)
    {
      if id in w.conns {
        assert ConnSafe(SceneOf(w'), w'.conns[id]);
        IdleKeepsMatch(w, w', id, w.conns[id], w.conns[id]);
      }
    }
  }

  lemma StepKeepsTransparent(w: World, e: Event)
    requires SafeWorld(w) && HooksSound(w) && RecordingsExact(w) && TableMatches(w) && Transparent(w) && Forward(w, e)
    requires SafeWorld(Step(w, e))
    ensures Transparent(Step(w, e))
  {
    if e.On? && e.id in w.conns {
      CallKeepsTransparent(w, e.id, e.call);
    } else {
      ProcessKeepsTransparent(w, Step(w, e));
    }
  }
}
