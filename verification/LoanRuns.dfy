/** Loan accounting over whole runs, the runs that break it, and what an abandoned loan costs. */
module LoanRuns {
  import opened Wrappers
  import opened SmartStrHeap
  import opened StdHandler
  import opened Connection
  import opened Run
  import opened LoanScene
  import opened LoanSafety
  import opened HookSafety

  /** Every step is permitted in the world it is taken from. */
  ghost predicate PermittedRun(w: World, events: seq<Event>)
    decreases |events|
  {
    events == [] ||
    var last := |events| - 1;
    PermittedRun(w, events[..last]) && Permitted(After(w, events[..last]), events[last])
  }

  /** Every world of the run is safe. */
  ghost predicate SafeRun(w: World, events: seq<Event>)
    decreases |events|
  {
    SafeWorld(After(w, events)) && (events == [] || SafeRun(w, events[..|events| - 1]))
  }

  lemma StartIsSafe(cfg: Config, now: nat)
    ensures SafeWorld(Start(cfg, now))
  {
  }

  lemma {:induction false} PermittedRunEndsSafe(cfg: Config, now: nat, events: seq<Event>)
    requires PermittedRun(Start(cfg, now), events)
    ensures SafeWorld(After(Start(cfg, now), events))
    decreases |events|
  {
    if events == [] {
      StartIsSafe(cfg, now);
    } else {
      var last := |events| - 1;
      PermittedRunEndsSafe(cfg, now, events[..last]);
      HooksAreAlwaysSound(cfg, now, events[..last]);
      SoundReadsInBounds(After(Start(cfg, now), events[..last]));
      SafeIffPermitted(After(Start(cfg, now), events[..last]), events[last]);
    }
  }

  lemma SoundReadsInBounds(w: World)
    requires HooksSound(w)
    ensures ReadsInBounds(w)
  {
    forall id | id in w.conns ensures ConnSound(w.process, w.conns[id]) {}
  }

  /** A run keeps the loans in order throughout if and only if each of its steps is permitted. */
  lemma {:induction false} SafeRunIffPermittedRun(cfg: Config, now: nat, events: seq<Event>)
    ensures SafeRun(Start(cfg, now), events) <==> PermittedRun(Start(cfg, now), events)
    decreases |events|
  {
    if events == [] {
      StartIsSafe(cfg, now);
    } else {
      var last := |events| - 1;
      SafeRunIffPermittedRun(cfg, now, events[..last]);
      HooksAreAlwaysSound(cfg, now, events[..last]);
      SoundReadsInBounds(After(Start(cfg, now), events[..last]));
      if SafeRun(Start(cfg, now), events[..last]) {
        SafeIffPermitted(After(Start(cfg, now), events[..last]), events[last]);
      }
    }
  }

  /**
   * In a permitted run nothing is freed while it is lent: a connection replaying from the cache
   * reads a live buffer, the key it will return leads to the entry that lent that buffer, and
   * that entry counts the loan. No buffer was ever touched after its release.
   */
  lemma LentBuffersStay(cfg: Config, now: nat, events: seq<Event>, id: ConnId)
    requires PermittedRun(Start(cfg, now), events) && !cfg.dataCopy
    requires id in After(Start(cfg, now), events).conns && After(Start(cfg, now), events).conns[id].hook == Replay
    ensures
      var w := After(Start(cfg, now), events);
      var c := w.conns[id];
      && !w.process.heap.fault
      && c.recordedData.Some? && c.recordedData.value in w.process.heap.live
      && c.hashKey.Some? && c.hashKey.value in w.process.table
      && var entry := w.process.table[c.hashKey.value];
         && entry.cachedQuery == c.recordedData.value
         && entry.references ==
            |set i | i in w.conns && w.conns[i].hook == Replay && w.conns[i].recordedData == c.recordedData|
            + w.history.abandoned[c.recordedData.value]
         && entry.references > 0
  {
    PermittedRunEndsSafe(cfg, now, events);
    var w := After(Start(cfg, now), events);
    RunKeepsConfig(Start(cfg, now), events);
    var s, c := SceneOf(w), w.conns[id];
    assert ConnSafe(s, c);
    assert CountSafe(s, w.process.table[c.hashKey.value]);
    var borrowers := Borrowers(s.cfg, s.conns, c.recordedData.value);
    assert id in borrowers;
    assert borrowers == set i | i in w.conns && w.conns[i].hook == Replay && w.conns[i].recordedData == c.recordedData;
  }

  lemma {:induction false} RunKeepsConfig(w: World, events: seq<Event>)
    ensures After(w, events).cfg == w.cfg
    decreases |events|
  {
    if events != [] {
      RunKeepsConfig(w, events[..|events| - 1]);
    }
  }

  // ---- two runs that are not permitted ----

  const SELECT := Request(true, false, Some("k"), 0)
  const ANSWER: Bytes := [7]
  const INI := Ini(true, 30)
  const RESULT: Option<ResultSet> := Some(ResultSet([], true, 0))

  /** A query, recorded and cached. */
  ghost function Cached(id: ConnId, w: World): World {
    var recording := Step(w, On(id, Send(SELECT, true)));
    Step(Step(recording, On(id, Receive(1, Some(ANSWER)))), On(id, Store(INI, RESULT)))
  }

  lemma CachedFacts(w: World, id: ConnId)
    requires !w.cfg.dataCopy && !w.cfg.slamDefense && id in w.conns && w.conns[id].hook == Original
    requires "k" !in w.process.table
    ensures
      var w' := Cached(id, w);
      && w'.cfg == w.cfg && w'.now == w.now && w'.conns.Keys == w.conns.Keys
      && (forall i :: i in w.conns && i != id ==> w'.conns[i] == w.conns[i])
      && w'.conns[id].hook == Original && w'.conns[id].recordedData == None
      && w'.process.table == w.process.table["k" := Entry(w.process.heap.next, w.now + 30, false, 0)]
      && w'.process.heap == w.process.heap.Alloc(ANSWER)
  {
    var w1 := Step(w, On(id, Send(SELECT, true)));
    assert w1.conns[id].hook == Record && w1.conns[id].hashKey == Some("k") && w1.conns[id].activeWithCache;
    assert w1.process.heap == w.process.heap.Alloc([]) && w1.process.table == w.process.table;
    var w2 := Step(w1, On(id, Receive(1, Some(ANSWER))));
    assert [] + ANSWER == ANSWER;
    assert w2.process.heap == w.process.heap.Alloc(ANSWER) && w2.process.table == w.process.table;
    assert w2.conns[id] == w1.conns[id];
  }

  /** A send that fails after a hit leaves a dead buffer in the cache, and the next hit reads it. */
  lemma FailedSendReadsFreedBuffer(now: nat)
    ensures
      var w := Cached(0, Step(Start(Config(false, false), now), Connect(0)));
      var failed := Step(w, On(0, Send(SELECT, false)));
      var replaying := Step(failed, On(0, Send(SELECT, true)));
      && !w.process.heap.fault && replaying.conns[0].hook == Replay
      && Step(replaying, On(0, Receive(1, None))).process.heap.fault
  {
    var w0 := Step(Start(Config(false, false), now), Connect(0));
    CachedFacts(w0, 0);
    var w := Cached(0, w0);
    var failed := Step(w, On(0, Send(SELECT, false)));
    assert failed.process.heap.live == map[] && failed.conns[0].hook == Original;
    assert failed.process.table["k"].cachedQuery == 0 && failed.process.table["k"].deadline == now + 30;
    var replaying := Step(failed, On(0, Send(SELECT, true)));
    assert replaying.conns[0].hook == Replay && replaying.conns[0].recordedData == Some(0);
    assert replaying.process.heap == failed.process.heap;
  }

  /** Two connections, an entry, and the second connection replaying it when the cache is cleared. */
  ghost function ClearedWhileReplaying(now: nat): World {
    var w := Cached(0, Step(Step(Start(Config(false, false), now), Connect(0)), Connect(1)));
    Step(Step(w, On(1, Send(SELECT, true))), ClearCache)
  }

  lemma ClearedWhileReplayingFacts(now: nat)
    ensures
      var w := ClearedWhileReplaying(now);
      && w.cfg == Config(false, false) && w.now == now && w.process.table == map[]
      && 0 in w.conns && w.conns[0].hook == Original
      && 1 in w.conns && w.conns[1].hook == Replay && w.conns[1].activeWithCache
      && w.conns[1].hashKey == Some("k") && w.conns[1].recordedData.Some?
  {
    var w0 := Step(Step(Start(Config(false, false), now), Connect(0)), Connect(1));
    CachedFacts(w0, 0);
    var w := Cached(0, w0);
    var replaying := Step(w, On(1, Send(SELECT, true)));
    assert replaying.conns[0] == w.conns[0];
  }

  /** A clear while a connection replays lets its return hit a new entry, whose counter wraps. */
  lemma ClearedLoanWrapsCounter(now: nat)
    ensures
      var w := Step(Cached(0, ClearedWhileReplaying(now)), On(1, Store(INI, RESULT)));
      "k" in w.process.table && w.process.table["k"].references == REFERENCE_LIMIT - 1
  {
    ClearedWhileReplayingFacts(now);
    CachedFacts(ClearedWhileReplaying(now), 0);
    ReturnOfStranger(Cached(0, ClearedWhileReplaying(now)), 1);
  }

  lemma ReturnOfStranger(w: World, id: ConnId)
    requires !w.cfg.dataCopy && id in w.conns && w.conns[id].hook == Replay && w.conns[id].activeWithCache
    requires w.conns[id].hashKey == Some("k") && w.conns[id].recordedData.Some?
    requires "k" in w.process.table && w.process.table["k"].references == 0
    ensures
      var w' := Step(w, On(id, Store(INI, RESULT)));
      "k" in w'.process.table && w'.process.table["k"].references == REFERENCE_LIMIT - 1
  {
  }
}
