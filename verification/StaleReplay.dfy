/**
 * Does a replay answer the query that the connection sent last? Not always: a query that goes past
 * the cache, sent while the connection replays, leaves the replay hook in place. It never reaches
 * the server, and its answer is read from the cache.
 */
module StaleReplay {
  import opened Wrappers
  import opened SmartStrHeap
  import opened StdHandler
  import opened Connection
  import opened Run
  import opened LoanSafety
  import opened Refinement

  /** A connection that replays does so for the query it sent last. */
  predicate ReplayCurrent(w: World, id: ConnId)
    requires id in w.conns
  {
    var c := w.conns[id];
    c.hook == Replay ==> c.hashKey.Some? && id in w.history.asked && w.history.asked[id] == c.hashKey
  }

  ghost predicate ReplaysCurrent(w: World) {
    forall id :: id in w.conns ==> ReplayCurrent(w, id)
  }

  /** No query is sent past the cache by a connection that replays. */
  predicate Patient(w: World, e: Event) {
    e.On? && e.id in w.conns && e.call.Send? && e.call.pass && w.conns[e.id].hook == Replay ==>
      CachePath(e.call.request)
  }

  ghost predicate PatientRun(w: World, events: seq<Event>)
    decreases |events|
  {
    events == [] ||
    var last := |events| - 1;
    PatientRun(w, events[..last]) && Patient(After(w, events[..last]), events[last])
  }

  /** Replays are current in every world of the run. */
  ghost predicate CurrentRun(w: World, events: seq<Event>)
    decreases |events|
  {
    ReplaysCurrent(After(w, events)) && (events == [] || CurrentRun(w, events[..|events| - 1]))
  }

  lemma CallerCurrent(w: World, id: ConnId, call: Call)
    requires id in w.conns && ReplayCurrent(w, id)
    ensures ReplayCurrent(Step(w, On(id, call)), id) <==> Patient(w, On(id, call))
  {
    if !call.Send? {
      OtherCallCurrent(w, id, call);
    } else if CachePath(call.request) {
      SentCurrent(w, id, call.request, call.pass);
    } else {
      PastCurrent(w, id, call.request, call.pass);
    }
  }

  lemma OtherCallCurrent(w: World, id: ConnId, call: Call)
    requires id in w.conns && !call.Send?
    ensures
      var w' := Step(w, On(id, call));
      var c, c' := w.conns[id], w'.conns[id];
      w'.history.asked == w.history.asked && (c'.hook == Replay ==> c.hook == Replay && c'.hashKey == c.hashKey)
  {
    match call
    case Receive(_, _) =>
    case Reap(_) =>
    case Store(_, _) =>
    case Use(_) =>
  }

  lemma PastCurrent(w: World, id: ConnId, request: Request, pass: bool)
    requires id in w.conns && !CachePath(request) && ReplayCurrent(w, id)
    ensures ReplayCurrent(Step(w, On(id, Send(request, pass))), id) <==> Patient(w, On(id, Send(request, pass)))
  {
  }

  lemma SentCurrent(w: World, id: ConnId, request: Request, pass: bool)
    requires id in w.conns && CachePath(request)
    ensures ReplayCurrent(Step(w, On(id, Send(request, pass))), id)
  {
  }

  lemma OthersStayCurrent(w: World, id: ConnId, call: Call, other: ConnId)
    requires id in w.conns && other in w.conns && other != id
    ensures
      var w' := Step(w, On(id, call));
      && other in w'.conns && w'.conns[other] == w.conns[other]
      && (other in w.history.asked ==>
            other in w'.history.asked && w'.history.asked[other] == w.history.asked[other])
  {
  }

  lemma StepKeepsCurrent(w: World, e: Event)
    requires ReplaysCurrent(w)
    ensures ReplaysCurrent(Step(w, e)) <==> Patient(w, e)
  {
    if e.On? && e.id in w.conns {
      CallerCurrent(w, e.id, e.call);
      var w' := Step(w, e);
      forall other | other in w'.conns && other != e.id ensures ReplayCurrent(w', other) {
        assert ReplayCurrent(w, other);
        OthersStayCurrent(w, e.id, e.call, other);
      }
    } else {
      QuietStepKeepsCurrent(w, e);
    }
  }

  lemma QuietStepKeepsCurrent(w: World, e: Event)
    requires ReplaysCurrent(w) && !(e.On? && e.id in w.conns)
    ensures ReplaysCurrent(Step(w, e))
  {
    var w' := Step(w, e);
    forall id | id in w'.conns ensures ReplayCurrent(w', id) {
      assert id in w.conns ==> ReplayCurrent(w, id);
    }
  }

  /**
   * In every run, good or bad, replays answer the latest query of their connection throughout if and
   * only if no connection sends a query past the cache while it replays.
   */
  lemma {:induction false} CurrentIffPatient(cfg: Config, now: nat, events: seq<Event>)
    ensures CurrentRun(Start(cfg, now), events) <==> PatientRun(Start(cfg, now), events)
    decreases |events|
  {
    if events != [] {
      var last := |events| - 1;
      CurrentIffPatient(cfg, now, events[..last]);
      if CurrentRun(Start(cfg, now), events[..last]) {
        StepKeepsCurrent(After(Start(cfg, now), events[..last]), events[last]);
      }
    }
  }

  // ---- what holds without patience ----

  /** The latest query of a connection that replays was found under that key, or it went past the cache. */
  predicate ReplayTraced(w: World, id: ConnId)
    requires id in w.conns
  {
    var c := w.conns[id];
    c.hook == Replay ==>
      c.hashKey.Some? && id in w.history.asked && (w.history.asked[id] == c.hashKey || w.history.asked[id] == None)
  }

  ghost predicate ReplaysTraced(w: World) {
    forall id :: id in w.conns ==> ReplayTraced(w, id)
  }

  lemma CallerTraced(w: World, id: ConnId, call: Call)
    requires id in w.conns && ReplayTraced(w, id)
    ensures ReplayTraced(Step(w, On(id, call)), id)
  {
    if !call.Send? {
      OtherCallCurrent(w, id, call);
    } else if CachePath(call.request) {
      SentCurrent(w, id, call.request, call.pass);
    }
  }

  lemma StepKeepsTraced(w: World, e: Event)
    requires ReplaysTraced(w)
    ensures ReplaysTraced(Step(w, e))
  {
    var w' := Step(w, e);
    forall id | id in w'.conns ensures ReplayTraced(w', id) {
      assert id in w.conns ==> ReplayTraced(w, id);
      if e.On? && e.id in w.conns {
        if id == e.id {
          CallerTraced(w, id, e.call);
        } else {
          OthersStayCurrent(w, e.id, e.call, id);
        }
      }
    }
  }

  /** So a replay answers the latest query of its connection, in every run, unless that went past the cache. */
  lemma {:induction false} ReplaysAreAlwaysTraced(cfg: Config, now: nat, events: seq<Event>)
    ensures ReplaysTraced(After(Start(cfg, now), events))
    decreases |events|
  {
    if events != [] {
      var last := |events| - 1;
      ReplaysAreAlwaysTraced(cfg, now, events[..last]);
      StepKeepsTraced(After(Start(cfg, now), events[..last]), events[last]);
    }
  }

  /**
   * A query sent past the cache by a connection that replays is a permitted step. Nothing goes over
   * the wire, the next read delivers what it would have delivered before, and storing the result does
   * not end the replay.
   */
  lemma PastTheCacheReplaysOn(w: World, id: ConnId, request: Request, count: nat, reply: Option<Bytes>, ini: Ini,
                              result: Option<ResultSet>)
    requires id in w.conns && w.conns[id].hook == Replay && !CachePath(request)
    ensures
      var e := On(id, Send(request, true));
      var w' := Step(w, e);
      var c, c' := w.conns[id], w'.conns[id];
      && Permitted(w, e) && Forward(w, e)
      && w'.history.wire == w.history.wire && w'.history.asked[id] == None
      && c'.hook == Replay && c'.hashKey == c.hashKey
      && ReceiveData(w'.process, c', count, reply).2 == ReceiveData(w.process, c, count, reply).2
      && Step(w', On(id, Store(ini, result))).conns[id].hook == Replay
  {
    var w' := Step(w, On(id, Send(request, true)));
    assert w'.process.heap == w.process.heap && w'.conns[id].recordedData == w.conns[id].recordedData;
    assert w'.conns[id].position == w.conns[id].position && !w'.conns[id].activeWithCache;
  }
}
