/**
 * Eviction is unobservable: the table, with its deadlines, counters and evictions, answers
 * every lookup as the append-only log would.
 */
module Refinement {
  import opened Wrappers
  import opened SmartStrHeap
  import opened StdHandler
  import opened Connection
  import opened Run
  import opened LoanScene
  import opened LoanSafety
  import opened HookSafety
  import opened CacheLog

  /** An entry stands for the last add of its key; under slam defence it remembers who asked, and only then lends. */
  predicate EntryMatches(cfg: Config, heap: Heap, log: seq<LogItem>, key: Key, entry: Entry) {
    && Latest(log, key).Some?
    && heap.Read(entry.cachedQuery) == log[Latest(log, key).value].bytes
    && entry.deadline == Deadline(log[Latest(log, key).value])
    && (cfg.slamDefense ==>
          && (entry.inRefresh <==> AskedSince(log, key))
          && (entry.references > 0 ==> entry.inRefresh))
  }

  /** A key without an entry was never added, or its last add expired and slam defence is off. */
  predicate AbsenceMatches(cfg: Config, now: nat, log: seq<LogItem>, key: Key) {
    Latest(log, key).Some? ==> !cfg.slamDefense && Deadline(log[Latest(log, key).value]) <= now
  }

  predicate KeyMatches(cfg: Config, now: nat, p: Process, log: seq<LogItem>, key: Key) {
    if key in p.table then EntryMatches(cfg, p.heap, log, key, p.table[key]) else AbsenceMatches(cfg, now, log, key)
  }

  ghost predicate TableMatches(w: World) {
    forall key :: KeyMatches(w.cfg, w.now, w.process, w.history.log, key)
  }

  /** Cached buffers keep their content through a step. */
  ghost predicate CachedContentKept(p: Process, p': Process) {
    forall key :: key in p.table && p.table[key].cachedQuery in p'.heap.live ==>
      p'.heap.Read(p.table[key].cachedQuery) == p.heap.Read(p.table[key].cachedQuery)
  }

  lemma TameKeepsContent(w: World, id: ConnId, p': Process)
    requires HooksSound(w) && id in w.conns && Tame(w.process, w.conns[id], p')
    ensures CachedContentKept(w.process, p')
  {
    assert ConnSound(w.process, w.conns[id]);
  }

  // ---- the handler operations against the log ----

  lemma FindMatches(cfg: Config, now: nat, p: Process, log: seq<LogItem>, key: Key, k: Key, heap: Heap)
    requires KeyMatches(cfg, now, p, log, k)
    requires k in p.table && k in Find(cfg, now, p, key).0.table ==>
               heap.Read(p.table[k].cachedQuery) == p.heap.Read(p.table[k].cachedQuery)
    ensures KeyMatches(cfg, now, Find(cfg, now, p, key).0.(heap := heap), log + [Asked(key)], k)
  {
    LatestAfter(log, Asked(key), k);
    if k in p.table { assert EntryMatches(cfg, p.heap, log, k, p.table[k]); }
  }

  lemma IsCachedMatches(cfg: Config, now: nat, p: Process, log: seq<LogItem>, key: Key, k: Key)
    requires KeyMatches(cfg, now, p, log, k)
    requires k in p.table && k in IsCached(cfg, now, p, key).0.table ==>
               p.table[k].cachedQuery in IsCached(cfg, now, p, key).0.heap.live
    ensures KeyMatches(cfg, now, IsCached(cfg, now, p, key).0, log, k)
  {
    if k in p.table { assert EntryMatches(cfg, p.heap, log, k, p.table[k]); }
  }

  lemma ReturnMatches(cfg: Config, now: nat, p: Process, log: seq<LogItem>, key: Key, a: Address, k: Key)
    requires KeyMatches(cfg, now, p, log, k)
    requires !cfg.dataCopy && key in p.table ==> 0 < p.table[key].references < REFERENCE_LIMIT
    requires k in p.table && k in Return(cfg, now, p, key, a).table ==>
               Return(cfg, now, p, key, a).heap.Read(p.table[k].cachedQuery) == p.heap.Read(p.table[k].cachedQuery)
    ensures KeyMatches(cfg, now, Return(cfg, now, p, key, a), log, k)
  {
    if k in p.table { assert EntryMatches(cfg, p.heap, log, k, p.table[k]); }
  }

  lemma AddMatches(cfg: Config, now: nat, p: Process, log: seq<LogItem>, item: LogItem, a: Address, k: Key, p': Process)
    requires KeyMatches(cfg, now, p, log, k) && item.Added? && item.addedAt == now
    requires CanAdd(cfg, now, p, item.key) && p'.table == p.table[item.key := Entry(a, now + item.ttl, false, 0)]
    requires p'.heap.Read(a) == item.bytes
    requires k in p.table && k != item.key ==>
               p'.heap.Read(p.table[k].cachedQuery) == p.heap.Read(p.table[k].cachedQuery)
    ensures KeyMatches(cfg, now, p', log + [item], k)
  {
    LatestAfter(log, item, k);
    if k in p.table { assert EntryMatches(cfg, p.heap, log, k, p.table[k]); }
  }

  /** The same table over a heap with the same cached content. */
  lemma SameTableMatches(cfg: Config, now: nat, p: Process, log: seq<LogItem>, k: Key, p': Process, now': nat)
    requires KeyMatches(cfg, now, p, log, k) && p'.table == p.table && now <= now'
    requires k in p.table ==> p'.heap.Read(p.table[k].cachedQuery) == p.heap.Read(p.table[k].cachedQuery)
    ensures KeyMatches(cfg, now', p', log, k)
  {
  }

  // ---- the steps ----

  /** The clock does not go back. */
  predicate Forward(w: World, e: Event) {
    e.Tick? ==> w.now <= e.time
  }

  lemma SafeKeepsCachedContent(w: World, w': World, key: Key)
    requires SafeWorld(w') && key in w.process.table && key in w'.process.table
    requires w'.process.table[key].cachedQuery == w.process.table[key].cachedQuery
    requires CachedContentKept(w.process, w'.process)
    ensures var a := w.process.table[key].cachedQuery; w'.process.heap.Read(a) == w.process.heap.Read(a)
  {
  }

  lemma SendKeepsMatch(w: World, w': World, id: ConnId, request: Request, pass: bool, key: Key)
    requires id in w.conns && KeyMatches(w.cfg, w.now, w.process, w.history.log, key)
    requires CachePath(request) && Armed(w.conns[id]) && SendLeaves(w, id, request, pass, w')
    requires w'.now == w.now && w'.history.log == w.history.log + [Asked(request.hashKey.value)]
    requires SafeWorld(w') && CachedContentKept(w.process, w'.process)
    ensures KeyMatches(w'.cfg, w'.now, w'.process, w'.history.log, key)
  {
    var p' := Find(w.cfg, w.now, w.process, request.hashKey.value).0;
    if key in w.process.table && key in p'.table {
      FindKeepsBuffer(w.cfg, w.now, w.process, request.hashKey.value, key);
      SafeKeepsCachedContent(w, w', key);
    }
    FindMatches(w.cfg, w.now, w.process, w.history.log, request.hashKey.value, key, w'.process.heap);
    SameTableMatches(w.cfg, w.now, p'.(heap := w'.process.heap), w'.history.log, key, w'.process, w.now);
  }

  lemma FindKeepsBuffer(cfg: Config, now: nat, p: Process, key: Key, k: Key)
    requires k in p.table && k in Find(cfg, now, p, key).0.table
    ensures Find(cfg, now, p, key).0.table[k].cachedQuery == p.table[k].cachedQuery
  {
  }

  lemma StoreKeepsMatch(w: World, id: ConnId, ini: Ini, result: Option<ResultSet>, key: Key)
    requires SafeWorld(w) && id in w.conns && KeyMatches(w.cfg, w.now, w.process, w.history.log, key)
    requires SafeWorld(Step(w, On(id, Store(ini, result))))
    requires CachedContentKept(w.process, Step(w, On(id, Store(ini, result))).process)
    ensures
      var w' := Step(w, On(id, Store(ini, result)));
      KeyMatches(w'.cfg, w'.now, w'.process, w'.history.log, key)
  {
    var w', c := Step(w, On(id, Store(ini, result))), w.conns[id];
    assert ConnSafe(SceneOf(w), c);
    if key in w.process.table && key in w'.process.table
       && w'.process.table[key].cachedQuery == w.process.table[key].cachedQuery {
      SafeKeepsCachedContent(w, w', key);
    }
    if result.Some? && c.activeWithCache && c.hook == Replay {
      StoreReplayedKeepsMatch(w, w', id, ini, result, key);
    } else if Adds(w, c, ini, result) {
      AddedKeepsMatch(w, w', id, ini, result, key);
    } else {
      SameTableMatches(w.cfg, w.now, w.process, w.history.log, key, w'.process, w.now);
    }
  }

  lemma StoreReplayedKeepsMatch(w: World, w': World, id: ConnId, ini: Ini, result: Option<ResultSet>, key: Key)
    requires SafeWorld(w) && id in w.conns && KeyMatches(w.cfg, w.now, w.process, w.history.log, key)
    requires w' == Step(w, On(id, Store(ini, result)))
    requires result.Some? && w.conns[id].activeWithCache && w.conns[id].hook == Replay && Armed(w.conns[id])
    requires key in w.process.table && key in w'.process.table ==>
               var a := w.process.table[key].cachedQuery; w'.process.heap.Read(a) == w.process.heap.Read(a)
    ensures KeyMatches(w'.cfg, w'.now, w'.process, w'.history.log, key)
  {
    var c, s := w.conns[id], SceneOf(w);
    StoreReplayedLeaves(w, id, ini, result);
    if !w.cfg.dataCopy {
      assert ConnSafe(s, c);
      assert CountSafe(s, w.process.table[c.hashKey.value]);
      assert id in Borrowers(s.cfg, s.conns, c.recordedData.value);
    }
    ReturnMatches(w.cfg, w.now, w.process, w.history.log, c.hashKey.value, c.recordedData.value, key);
  }

  lemma AddedKeepsMatch(w: World, w': World, id: ConnId, ini: Ini, result: Option<ResultSet>, key: Key)
    requires SafeWorld(w) && id in w.conns && KeyMatches(w.cfg, w.now, w.process, w.history.log, key)
    requires w' == Step(w, On(id, Store(ini, result))) && Adds(w, w.conns[id], ini, result)
    requires key in w.process.table && key != w.conns[id].hashKey.value ==>
               var a := w.process.table[key].cachedQuery; w'.process.heap.Read(a) == w.process.heap.Read(a)
    ensures KeyMatches(w'.cfg, w'.now, w'.process, w'.history.log, key)
  {
    var c := w.conns[id];
    assert ConnSafe(SceneOf(w), c);
    assert c.hashKey.value in w.process.table ==> w.process.table[c.hashKey.value].cachedQuery != c.recordedData.value;
    AddedIs(w, id, ini, result);
    var item := w'.history.log[|w.history.log|];
    AddMatches(w.cfg, w.now, w.process, w.history.log, item, c.recordedData.value, key, w'.process);
  }

  lemma AddedIs(w: World, id: ConnId, ini: Ini, result: Option<ResultSet>)
    requires id in w.conns && Adds(w, w.conns[id], ini, result)
    requires w.conns[id].hashKey.value in w.process.table ==>
               w.process.table[w.conns[id].hashKey.value].cachedQuery != w.conns[id].recordedData.value
    ensures
      var w', c := Step(w, On(id, Store(ini, result))), w.conns[id];
      var key, a, ttl := c.hashKey.value, c.recordedData.value, ChosenTtl(c, ini, result.value);
      && w'.cfg == w.cfg && w'.now == w.now
      && w'.process.table == w.process.table[key := Entry(a, w.now + ttl, false, 0)]
      && w'.process.heap.Read(a) == w.process.heap.Read(a)
      && w'.history.log ==
           w.history.log +
             [Added(key, w.process.heap.Read(a), w.now, ttl, id, |w.history.wire|, RequestOf(w.history, id))]
  {
    AddIs(w.cfg, w.now, w.process, w.conns[id].hashKey.value, w.conns[id].recordedData.value,
          ChosenTtl(w.conns[id], ini, result.value));
  }

  lemma AddIs(cfg: Config, now: nat, p: Process, key: Key, a: Address, ttl: nat)
    requires CanAdd(cfg, now, p, key) && (key in p.table ==> p.table[key].cachedQuery != a)
    ensures
      var p' := AddIfNotExists(cfg, now, p, key, a, ttl).0;
      p'.table == p.table[key := Entry(a, now + ttl, false, 0)] && p'.heap.Read(a) == p.heap.Read(a)
  {
  }

  /** The calls that leave table and log alone. */
  predicate LeavesTable(call: Call) {
    match call
    case Send(request, _) => !CachePath(request)
    case Store(_, _) => false
    case _ => true
  }

  lemma OtherCallLeavesTable(w: World, id: ConnId, call: Call)
    requires id in w.conns && LeavesTable(call)
    ensures
      var w' := Step(w, On(id, call));
      w'.cfg == w.cfg && w'.now == w.now && w'.process.table == w.process.table && w'.history.log == w.history.log
  {
    match call
    case Send(_, _) =>
    case Reap(_) =>
    case Receive(_, _) =>
    case Use(_) =>
  }

  lemma OtherCallKeepsMatch(w: World, w': World, id: ConnId, call: Call, key: Key)
    requires id in w.conns && KeyMatches(w.cfg, w.now, w.process, w.history.log, key)
    requires w' == Step(w, On(id, call)) && LeavesTable(call)
    requires SafeWorld(w') && CachedContentKept(w.process, w'.process)
    ensures KeyMatches(w'.cfg, w'.now, w'.process, w'.history.log, key)
  {
    OtherCallLeavesTable(w, id, call);
    if key in w.process.table {
      SafeKeepsCachedContent(w, w', key);
    }
    SameTableMatches(w.cfg, w.now, w.process, w.history.log, key, w'.process, w.now);
  }

  lemma CallKeepsMatch(w: World, w': World, id: ConnId, call: Call, key: Key)
    requires SafeWorld(w) && id in w.conns && KeyMatches(w.cfg, w.now, w.process, w.history.log, key)
    requires w' == Step(w, On(id, call)) && SafeWorld(w') && CachedContentKept(w.process, w'.process)
    ensures KeyMatches(w'.cfg, w'.now, w'.process, w'.history.log, key)
  {
    if LeavesTable(call) {
      OtherCallKeepsMatch(w, w', id, call, key);
    } else if call.Send? {
      assert ConnSafe(SceneOf(w), w.conns[id]);
      SendDoesLeave(w, id, call.request, call.pass);
      SendKeepsMatch(w, w', id, call.request, call.pass, key);
    } else {
      StoreKeepsMatch(w, id, call.ini, call.result, key);
    }
  }

  lemma CallKeepsMatches(w: World, id: ConnId, call: Call)
    requires SafeWorld(w) && HooksSound(w) && TableMatches(w) && id in w.conns
    requires SafeWorld(Step(w, On(id, call)))
    ensures TableMatches(Step(w, On(id, call)))
  {
    var w' := Step(w, On(id, call));
    CallIsTame(w, id, call);
    TameKeepsContent(w, id, w'.process);
    forall key ensures KeyMatches(w'.cfg, w'.now, w'.process, w'.history.log, key) {
      assert KeyMatches(w.cfg, w.now, w.process, w.history.log, key);
      CallKeepsMatch(w, w', id, call, key);
    }
  }

  lemma StepKeepsMatches(w: World, e: Event)
    requires SafeWorld(w) && HooksSound(w) && TableMatches(w) && Forward(w, e)
    requires SafeWorld(Step(w, e))
    ensures TableMatches(Step(w, e))
  {
    if e.On? && e.id in w.conns {
      CallKeepsMatches(w, e.id, e.call);
    } else {
      var w' := Step(w, e);
      forall key ensures KeyMatches(w'.cfg, w'.now, w'.process, w'.history.log, key) {
        assert KeyMatches(w.cfg, w.now, w.process, w.history.log, key);
        match e
        case QueryIsCached(k) => IsCachedMatches(w.cfg, w.now, w.process, w.history.log, k, key);
        case ClearCache => LatestAfter(w.history.log, Cleared, key);
        case _ => SameTableMatches(w.cfg, w.now, w.process, w.history.log, key, w'.process, w'.now);
      }
    }
  }

  // ---- the theorem ----

  ghost predicate ForwardRun(w: World, events: seq<Event>)
    decreases |events|
  {
    events == [] ||
    var last := |events| - 1;
    ForwardRun(w, events[..last]) && Forward(After(w, events[..last]), events[last])
  }

  function FoundBytes(w: World, key: Key): Option<Bytes> {
    var (p, found) := Find(w.cfg, w.now, w.process, key);
    if found.Some? then Some(p.heap.Read(found.value)) else None
  }

  lemma MatchingFindAsPredicted(w: World, key: Key)
    requires SafeWorld(w) && KeyMatches(w.cfg, w.now, w.process, w.history.log, key)
    ensures FoundBytes(w, key) == Predicted(w.cfg, w.history.log, w.now, key)
    ensures IsCached(w.cfg, w.now, w.process, key).1 <==>
            if w.cfg.slamDefense then Latest(w.history.log, key).Some? else FoundBytes(w, key).Some?
  {
  }
}
