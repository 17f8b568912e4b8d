/**
 * Loan accounting over whole runs: which steps keep every buffer in the right hands.
 *
 * The main result is exact. From a safe world a step leads to a safe world if and only if
 * it is `Permitted`; the steps that are not are the ones where the source releases, or
 * loses track of, a buffer that the cache still lends.
 */
module LoanSafety {
  import opened Wrappers
  import opened SmartStrHeap
  import opened StdHandler
  import opened Connection
  import opened Run
  import opened LoanScene

  function SceneOf(w: World): Scene {
    Scene(w.cfg, w.process.table, w.process.heap, w.conns, w.history.abandoned)
  }

  ghost predicate SafeWorld(w: World) {
    Safe(SceneOf(w))
  }

  /**
   * With std_data_copy every step is permitted. Without it, a send must pass when the lookup
   * lends a buffer, the counter of that entry must not be at its maximum, reap_query must meet
   * a result set while it is replayed, and the cache must not be cleared while anyone replays.
   */
  predicate Permitted(w: World, e: Event) {
    w.cfg.dataCopy ||
    match e
    case ClearCache => forall id :: id in w.conns ==> w.conns[id].hook != Replay
    case On(id, Send(request, pass)) =>
      id in w.conns && CachePath(request) && Found(w, request.hashKey.value).Some? ==>
        pass && w.process.table[request.hashKey.value].references + 1 < REFERENCE_LIMIT
    case On(id, Reap(resultSet)) =>
      id in w.conns && w.conns[id].activeWithCache && w.conns[id].hook == Replay ==> resultSet
    case _ => true
  }

  // ---- the handler operations ----

  function WithProcess(s: Scene, p: Process): Scene {
    s.(table := p.table, heap := p.heap)
  }

  /** After a lookup, a buffer it lends is booked as abandoned until the connection adopts it. */
  function AfterFind(s: Scene, now: nat, p: Process, key: Key): Scene {
    var (p', found) := Find(s.cfg, now, p, key);
    var s' := WithProcess(s, p');
    if found.Some? && !s.cfg.dataCopy then s'.(abandoned := s.abandoned + multiset{found.value}) else s'
  }

  lemma FindKeepsSafe(s: Scene, now: nat, p: Process, key: Key)
    requires Safe(s) && s.table == p.table && s.heap == p.heap
    requires !s.cfg.dataCopy && Find(s.cfg, now, p, key).1.Some? ==> p.table[key].references + 1 < REFERENCE_LIMIT
    ensures Safe(AfterFind(s, now, p, key))
    ensures
      var s', found := AfterFind(s, now, p, key), Find(s.cfg, now, p, key).1;
      && (found.Some? && s.cfg.dataCopy ==> Orphan(s', found.value))
      && (found.Some? && !s.cfg.dataCopy ==> key in s'.table && s'.table[key].cachedQuery == found.value)
      && (found.None? ==> s'.heap.next == s.heap.next && forall a :: Orphan(s, a) ==> Orphan(s', a))
  {
    if key in p.table {
      var entry := p.table[key];
      if entry.deadline <= now && !s.cfg.slamDefense {
        if entry.references == 0 {
          EvictKeepsSafe(s, key);
          assert AfterFind(s, now, p, key) == Evict(s, key);
        }
      } else if s.cfg.slamDefense && !entry.inRefresh {
        MarkKeepsSafe(s, key, entry.(inRefresh := true));
      } else if !s.cfg.dataCopy {
        LendKeepsSafe(s, key);
        assert AfterFind(s, now, p, key) == Lend(s, key);
      } else {
        AllocKeepsSafe(s, s.heap.Read(entry.cachedQuery));
      }
    }
  }

  lemma IsCachedKeepsSafe(s: Scene, now: nat, p: Process, key: Key)
    requires Safe(s) && s.table == p.table && s.heap == p.heap
    ensures Safe(WithProcess(s, IsCached(s.cfg, now, p, key).0))
  {
    if key in p.table && p.table[key].deadline <= now && !s.cfg.slamDefense && p.table[key].references == 0 {
      EvictKeepsSafe(s, key);
      assert WithProcess(s, IsCached(s.cfg, now, p, key).0) == Evict(s, key);
    }
  }

  lemma ReturnKeepsSafe(s: Scene, now: nat, p: Process, key: Key, a: Address)
    requires Safe(s) && s.table == p.table && s.heap == p.heap && !s.cfg.dataCopy
    requires key in s.table && s.table[key].cachedQuery == a && a in s.abandoned
    ensures Safe(WithProcess(s, Return(s.cfg, now, p, key, a)).(abandoned := s.abandoned - multiset{a}))
  {
    SettleKeepsSafe(s, key);
    var s' := Settle(s, key);
    var entry := s'.table[key];
    if entry.references == 0 && entry.deadline <= now && (!s.cfg.slamDefense || !entry.inRefresh) {
      EvictKeepsSafe(s', key);
      assert WithProcess(s, Return(s.cfg, now, p, key, a)).(abandoned := s.abandoned - multiset{a}) == Evict(s', key);
    }
  }

  lemma AddKeepsSafe(s: Scene, now: nat, p: Process, key: Key, a: Address, ttl: nat)
    requires Safe(s) && s.table == p.table && s.heap == p.heap && Orphan(s, a)
    ensures Safe(WithProcess(s, AddIfNotExists(s.cfg, now, p, key, a, ttl).0))
  {
    if CanAdd(s.cfg, now, p, key) {
      var s' := s;
      if key in p.table {
        EvictKeepsSafe(s, key);
        s' := Evict(s, key);
      }
      var entry := Entry(a, now + ttl, false, 0);
      InsertKeepsSafe(s', key, entry);
      assert WithProcess(s, AddIfNotExists(s.cfg, now, p, key, a, ttl).0) == Insert(s', key, entry);
    } else {
      assert WithProcess(s, p) == s;
    }
  }

  lemma ClearKeepsSafe(s: Scene, p: Process)
    requires Safe(s) && s.table == p.table && s.heap == p.heap
    requires forall id :: id in s.conns ==> !Borrows(s.cfg, s.conns[id])
    ensures Safe(WithProcess(s, Clear(p)))
  {
    var s' := WithProcess(s, Clear(p));
    assert !ClearFaults(p.table, p.heap);
    assert ConnsSafe(s') by {
      forall id | id in s.conns ensures ConnSafe(s', s.conns[id]) {
        assert ConnSafe(s, s.conns[id]);
      }
    }
  }

  // ---- the calls of a connection ----

  /** The buffer a connection works with after a lookup: lent or copied, its own again, or a new one. */
  function Taken(p: Process, found: Option<Address>, c: Conn): Address
    requires Armed(c)
  {
    if found.Some? then found.value else if c.hook == Record then c.recordedData.value else p.heap.next
  }

  function TakenHeap(p: Process, found: Option<Address>, c: Conn): Heap
    requires Armed(c)
  {
    if found.Some? then p.heap
    else if c.hook == Record then p.heap.Write(c.recordedData.value, [])
    else p.heap.Alloc([])
  }

  /** The connection after a send on the cache path. */
  predicate Sent(c': Conn, found: Option<Address>, a: Address, request: Request, pass: bool) {
    && c'.hook == (if !pass then Original else if found.Some? then Replay else Record)
    && c'.recordedData == (if pass then Some(a) else None)
    && (pass ==> c'.hashKey == request.hashKey)
  }

  /** What a send on the cache path leaves behind, in terms of its lookup. */
  predicate SendLeaves(w: World, id: ConnId, request: Request, pass: bool, w': World)
    requires id in w.conns && Armed(w.conns[id]) && CachePath(request)
  {
    var (p, found) := Find(w.cfg, w.now, w.process, request.hashKey.value);
    var a, heap := Taken(p, found, w.conns[id]), TakenHeap(p, found, w.conns[id]);
    && w'.cfg == w.cfg && id in w'.conns && w'.conns == w.conns[id := w'.conns[id]]
    && w'.process.table == p.table
    && w'.process.heap == (if pass then heap else heap.Free(a))
    && w'.history.abandoned == w.history.abandoned + Dropped(w.cfg, w.conns[id])
    && Sent(w'.conns[id], found, a, request, pass)
  }

  lemma SendDoesLeave(w: World, id: ConnId, request: Request, pass: bool)
    requires id in w.conns && Armed(w.conns[id]) && CachePath(request)
    ensures SendLeaves(w, id, request, pass, Step(w, On(id, Send(request, pass))))
  {
    SendQueryLeaves(w.cfg, w.now, w.process, w.conns[id], request, pass);
  }

  lemma SendQueryLeaves(cfg: Config, now: nat, p0: Process, c: Conn, request: Request, pass: bool)
    requires Armed(c) && CachePath(request)
    ensures
      var (p, found) := Find(cfg, now, p0, request.hashKey.value);
      var a, heap := Taken(p, found, c), TakenHeap(p, found, c);
      var (p', c') := SendQuery(cfg, now, p0, c, request, pass);
      p'.table == p.table && p'.heap == (if pass then heap else heap.Free(a)) && Sent(c', found, a, request, pass)
  {
    var stats := CountQuery(p0.stats, request.isSelect);
    var ready := c.(shouldCache := request.isSelect, ttl := request.ttl, activeWithCache := true);
    ArmLeaves(cfg, now, p0, stats, ready, request.hashKey.value);
    var (p, c') := Arm(cfg, now, p0.(stats := stats), ready, request.hashKey.value);
    assert SendQuery(cfg, now, p0, c, request, pass) ==
           if pass then (p, c'.(hashKey := request.hashKey))
           else (p.(heap := FreeIfSet(p.heap, c'.recordedData),
                    stats := p.stats.(uncachedOther := p.stats.uncachedOther + 1)),
                 c'.(hook := Original, recordedData := None));
  }

  lemma ArmLeaves(cfg: Config, now: nat, p0: Process, stats: Statistics, c: Conn, key: Key)
    requires Armed(c)
    ensures
      var (p, found) := Find(cfg, now, p0, key);
      var (p', c') := Arm(cfg, now, p0.(stats := stats), c, key);
      && p'.table == p.table && p'.heap == TakenHeap(p, found, c)
      && c'.hook == (if found.Some? then Replay else Record) && c'.recordedData == Some(Taken(p, found, c))
  {
    FindSeesHandlerOnly(cfg, now, p0, key, stats);
  }

  lemma SendKeepsSafe(w: World, id: ConnId, request: Request, pass: bool)
    requires SafeWorld(w) && id in w.conns && Permitted(w, On(id, Send(request, pass)))
    ensures SafeWorld(Step(w, On(id, Send(request, pass))))
  {
    var w' := Step(w, On(id, Send(request, pass)));
    var s, c := SceneOf(w), w.conns[id];
    assert ConnSafe(s, c);
    if !CachePath(request) {
      RetouchKeepsSafe(s, id, w'.conns[id]);
      assert SceneOf(w') == s.(conns := s.conns[id := w'.conns[id]]);
    } else {
      SendDoesLeave(w, id, request, pass);
      ArmKeepsSafe(w, w', id, request, pass);
    }
  }

  lemma ArmKeepsSafe(w: World, w': World, id: ConnId, request: Request, pass: bool)
    requires SafeWorld(w) && id in w.conns && CachePath(request) && Armed(w.conns[id])
    requires SendLeaves(w, id, request, pass, w')
    requires Permitted(w, On(id, Send(request, pass)))
    ensures SafeWorld(w')
  {
    var s, c, key := SceneOf(w), w.conns[id], request.hashKey.value;
    var found := Found(w, key);
    var idle := c.(hook := Original, recordedData := None);
    DropKeepsSafe(s, id, idle);
    var dropped := Drop(s, id, idle);
    FindKeepsSafe(dropped, w.now, w.process, key);
    UpdateTwice(w.conns, id, idle, w'.conns[id]);
    if found.Some? {
      HitKeepsSafe(AfterFind(dropped, w.now, w.process, key), w', id, key, found.value, pass);
    } else {
      MissKeepsSafe(AfterFind(dropped, w.now, w.process, key), w', id,
                    if c.hook == Record then c.recordedData else None, pass);
    }
  }

  lemma UpdateTwice<K, V>(m: map<K, V>, k: K, v: V, v': V)
    ensures m[k := v][k := v'] == m[k := v']
  {
  }

  lemma HitKeepsSafe(searched: Scene, w': World, id: ConnId, key: Key, a: Address, pass: bool)
    requires Safe(searched) && id in searched.conns && searched.conns[id].hook == Original
    requires id in w'.conns && w'.cfg == searched.cfg && w'.process.table == searched.table
    requires w'.conns == searched.conns[id := w'.conns[id]]
    requires w'.process.heap == if pass then searched.heap else searched.heap.Free(a)
    requires searched.abandoned == if w'.cfg.dataCopy then w'.history.abandoned else w'.history.abandoned + multiset{a}
    requires if w'.cfg.dataCopy then Orphan(searched, a)
             else pass && key in searched.table && searched.table[key].cachedQuery == a
    requires var c' := w'.conns[id];
             if pass then c'.hook == Replay && c'.recordedData == Some(a) && c'.hashKey == Some(key)
             else c'.hook == Original && c'.recordedData == None
    ensures SafeWorld(w')
  {
    if searched.cfg.dataCopy {
      TakeKeepsSafe(searched, id, w'.conns[id], a, pass);
    } else {
      AdoptKeepsSafe(searched, id, w'.conns[id], a);
      assert searched.abandoned - multiset{a} == w'.history.abandoned;
    }
  }

  lemma MissKeepsSafe(searched: Scene, w': World, id: ConnId, reused: Option<Address>, pass: bool)
    requires Safe(searched) && id in searched.conns && searched.conns[id].hook == Original
    requires id in w'.conns && w'.cfg == searched.cfg && w'.process.table == searched.table
    requires w'.conns == searched.conns[id := w'.conns[id]] && w'.history.abandoned == searched.abandoned
    requires reused.Some? ==> Orphan(searched, reused.value)
    requires var a := if reused.Some? then reused.value else searched.heap.next;
             var heap := if reused.Some? then searched.heap.Write(a, []) else searched.heap.Alloc([]);
             var c' := w'.conns[id];
             && w'.process.heap == (if pass then heap else heap.Free(a))
             && if pass then c'.hook == Record && c'.recordedData == Some(a) && c'.hashKey.Some?
                else c'.hook == Original && c'.recordedData == None
    ensures SafeWorld(w')
  {
    if reused.Some? {
      WriteKeepsSafe(searched, reused.value, []);
      TakeKeepsSafe(searched.(heap := searched.heap.Write(reused.value, [])), id, w'.conns[id], reused.value, pass);
    } else {
      AllocKeepsSafe(searched, []);
      TakeKeepsSafe(searched.(heap := searched.heap.Alloc([])), id, w'.conns[id], searched.heap.next, pass);
    }
  }

  /** The statistics have no influence on a lookup. */
  lemma FindSeesHandlerOnly(cfg: Config, now: nat, p: Process, key: Key, stats: Statistics)
    ensures var (p', found) := Find(cfg, now, p, key);
            Find(cfg, now, p.(stats := stats), key) == (p'.(stats := stats), found)
  {
  }

  /** A connection takes an orphaned buffer, or releases it when the send fails. */
  lemma TakeKeepsSafe(s: Scene, id: ConnId, c: Conn, a: Address, pass: bool)
    requires Safe(s) && id in s.conns && s.conns[id].hook == Original && Orphan(s, a)
    requires if pass then Owns(s.cfg, c) && Armed(c) && c.recordedData == Some(a)
             else c.hook == Original && c.recordedData == None
    ensures Safe(s.(conns := s.conns[id := c], heap := if pass then s.heap else s.heap.Free(a)))
  {
    if pass {
      OwnKeepsSafe(s, id, c);
      assert s.(conns := s.conns[id := c], heap := s.heap) == s.(conns := s.conns[id := c]);
    } else {
      assert ConnSafe(s, s.conns[id]);
      FreeKeepsSafe(s, a);
      RetouchKeepsSafe(s.(heap := s.heap.Free(a)), id, c);
    }
  }

  /** A connection lets its buffer go, and an own buffer is released. */
  lemma ReleaseKeepsSafe(s: Scene, id: ConnId, c: Conn)
    requires Safe(s) && id in s.conns && c.hook == Original && c.recordedData == None && !Borrows(s.cfg, s.conns[id])
    ensures Safe(s.(conns := s.conns[id := c], heap := FreeIfSet(s.heap, s.conns[id].recordedData)))
  {
    var before := s.conns[id];
    assert ConnSafe(s, before);
    DropKeepsSafe(s, id, c);
    var dropped := Drop(s, id, c);
    assert dropped.abandoned == s.abandoned;
    if before.recordedData.Some? {
      FreeKeepsSafe(dropped, before.recordedData.value);
    }
    assert s.(conns := s.conns[id := c], heap := FreeIfSet(s.heap, before.recordedData)) ==
           dropped.(heap := FreeIfSet(s.heap, before.recordedData));
  }

  lemma ReapKeepsSafe(w: World, id: ConnId, resultSet: bool)
    requires SafeWorld(w) && id in w.conns && Permitted(w, On(id, Reap(resultSet)))
    ensures SafeWorld(Step(w, On(id, Reap(resultSet))))
  {
    var w' := Step(w, On(id, Reap(resultSet)));
    var s, c' := SceneOf(w), w'.conns[id];
    assert ConnSafe(s, w.conns[id]);
    if w.conns[id].activeWithCache && !resultSet {
      ReleaseKeepsSafe(s, id, c');
      assert SceneOf(w') == s.(conns := s.conns[id := c'], heap := FreeIfSet(s.heap, w.conns[id].recordedData));
    } else {
      RetouchKeepsSafe(s, id, c');
      assert SceneOf(w') == s.(conns := s.conns[id := c']);
    }
  }

  lemma ReceiveKeepsSafe(w: World, id: ConnId, count: nat, reply: Option<Bytes>)
    requires SafeWorld(w) && id in w.conns && ReadsInBounds(w)
    ensures SafeWorld(Step(w, On(id, Receive(count, reply))))
  {
    var w' := Step(w, On(id, Receive(count, reply)));
    var s, c, c' := SceneOf(w), w.conns[id], w'.conns[id];
    assert ConnSafe(s, c);
    RetouchKeepsSafe(s, id, c');
    var s' := s.(conns := s.conns[id := c']);
    if c.hook == Record && FromServer(count, reply).Some? {
      var a := c.recordedData.value;
      WriteKeepsSafe(s', a, s.heap.Read(a) + reply.value);
      assert SceneOf(w') == s'.(heap := s.heap.Write(a, s.heap.Read(a) + reply.value));
    } else {
      if c.hook == Replay {
        BorrowedIsLive(s, c);
      }
      assert SceneOf(w') == s';
    }
  }

  lemma BorrowedIsLive(s: Scene, c: Conn)
    requires Safe(s) && ConnSafe(s, c) && c.hook != Original
    ensures c.recordedData.value in s.heap.live
  {
  }

  lemma UseKeepsSafe(w: World, id: ConnId, pass: bool)
    requires SafeWorld(w) && id in w.conns
    ensures SafeWorld(Step(w, On(id, Use(pass))))
  {
    var w' := Step(w, On(id, Use(pass)));
    var s, c, c' := SceneOf(w), w.conns[id], w'.conns[id];
    assert ConnSafe(s, c);
    if pass && c.hook == Record {
      ReleaseKeepsSafe(s, id, c');
      assert SceneOf(w') == s.(conns := s.conns[id := c'], heap := FreeIfSet(s.heap, c.recordedData));
    } else if pass {
      DropKeepsSafe(s, id, c');
      assert SceneOf(w') == Drop(s, id, c');
    } else {
      RetouchKeepsSafe(s, id, c');
      assert SceneOf(w') == s.(conns := s.conns[id := c']);
    }
  }

  lemma StoreKeepsSafe(w: World, id: ConnId, ini: Ini, result: Option<ResultSet>)
    requires SafeWorld(w) && id in w.conns
    ensures SafeWorld(Step(w, On(id, Store(ini, result))))
  {
    var w' := Step(w, On(id, Store(ini, result)));
    var s, c, c' := SceneOf(w), w.conns[id], w'.conns[id];
    assert ConnSafe(s, c);
    if result.None? || !c.activeWithCache || c.hook == Original {
      RetouchKeepsSafe(s, id, c');
      assert SceneOf(w') == s.(conns := s.conns[id := c']);
    } else if c.hook == Replay {
      StoreReplayedKeepsSafe(w, w', id, ini, result);
    } else {
      StoreRecordedKeepsSafe(w, w', id, ini, result);
    }
  }

  lemma StoreReplayedLeaves(w: World, id: ConnId, ini: Ini, result: Option<ResultSet>)
    requires id in w.conns && Armed(w.conns[id])
    requires result.Some? && w.conns[id].activeWithCache && w.conns[id].hook == Replay
    ensures
      var w' := Step(w, On(id, Store(ini, result)));
      var c, c' := w.conns[id], w'.conns[id];
      var p := Return(w.cfg, w.now, w.process, c.hashKey.value, c.recordedData.value);
      && w'.cfg == w.cfg && w'.conns == w.conns[id := c'] && w'.process.table == p.table && w'.process.heap == p.heap
      && w'.history.abandoned == w.history.abandoned
      && c'.hook == Original && c'.recordedData == None
  {
    var stats := Step(w, On(id, Store(ini, result))).process.stats;
    ReturnSeesHandlerOnly(w.cfg, w.now, w.process, w.conns[id].hashKey.value, w.conns[id].recordedData.value, stats);
  }

  lemma ReturnSeesHandlerOnly(cfg: Config, now: nat, p: Process, key: Key, a: Address, stats: Statistics)
    ensures Return(cfg, now, p.(stats := stats), key, a) == Return(cfg, now, p, key, a).(stats := stats)
  {
  }

  lemma StoreReplayedKeepsSafe(w: World, w': World, id: ConnId, ini: Ini, result: Option<ResultSet>)
    requires SafeWorld(w) && id in w.conns && w' == Step(w, On(id, Store(ini, result)))
    requires result.Some? && w.conns[id].activeWithCache && w.conns[id].hook == Replay
    ensures SafeWorld(w')
  {
    var s, c, c' := SceneOf(w), w.conns[id], w'.conns[id];
    assert ConnSafe(s, c);
    var a := c.recordedData.value;
    StoreReplayedLeaves(w, id, ini, result);
    if w.cfg.dataCopy {
      ReleaseKeepsSafe(s, id, c');
    } else {
      DropKeepsSafe(s, id, c');
      ReturnKeepsSafe(Drop(s, id, c'), w.now, w.process, c.hashKey.value, a);
      assert s.abandoned + multiset{a} - multiset{a} == s.abandoned;
    }
  }

  lemma StoreRecordedKeepsSafe(w: World, w': World, id: ConnId, ini: Ini, result: Option<ResultSet>)
    requires SafeWorld(w) && id in w.conns && w' == Step(w, On(id, Store(ini, result)))
    requires result.Some? && w.conns[id].activeWithCache && w.conns[id].hook == Record
    ensures SafeWorld(w')
  {
    var s, c, c' := SceneOf(w), w.conns[id], w'.conns[id];
    assert ConnSafe(s, c);
    DropKeepsSafe(s, id, c');
    var dropped := Drop(s, id, c');
    assert dropped.abandoned == s.abandoned;
    var a := c.recordedData.value;
    if Adds(w, c, ini, result) {
      AddKeepsSafe(dropped, w.now, w.process, c.hashKey.value, a, ChosenTtl(c, ini, result.value));
      assert SceneOf(w') ==
             WithProcess(dropped, AddIfNotExists(w.cfg, w.now, w.process, c.hashKey.value, a,
                                                 ChosenTtl(c, ini, result.value)).0);
    } else if NoTable(ini, result.value) || MayCache(c, result.value) {
      FreeKeepsSafe(dropped, a);
      assert SceneOf(w') == dropped.(heap := s.heap.Free(a));
    } else {
      assert SceneOf(w') == dropped;
    }
  }

  // ---- the theorem ----

  lemma CloseKeepsSafe(w: World, id: ConnId)
    requires SafeWorld(w) && id in w.conns
    ensures SafeWorld(Step(w, Close(id)))
  {
    var s := SceneOf(w);
    DropKeepsSafe(s, id, NEW_CONN);
    RemoveKeepsSafe(Drop(s, id, NEW_CONN), id);
    assert w.conns[id := NEW_CONN] - {id} == w.conns - {id};
  }

  lemma ClearStepKeepsSafe(w: World)
    requires SafeWorld(w) && Permitted(w, ClearCache)
    ensures SafeWorld(Step(w, ClearCache))
  {
    ClearKeepsSafe(SceneOf(w), w.process);
  }

  lemma PermittedKeepsSafe(w: World, e: Event)
    requires SafeWorld(w) && ReadsInBounds(w) && Permitted(w, e)
    ensures SafeWorld(Step(w, e))
  {
    match e
    case Connect(id) => if id !in w.conns { ConnectKeepsSafe(SceneOf(w), id); }
    case Close(id) =>
      if id in w.conns { CloseKeepsSafe(w, id); } else { assert w.conns - {id} == w.conns; }
    case QueryIsCached(key) => IsCachedKeepsSafe(SceneOf(w), w.now, w.process, key);
    case ClearCache => ClearStepKeepsSafe(w);
    case Tick(_) =>
    case On(id, call) =>
      if id in w.conns {
        match call
        case Send(request, pass) => SendKeepsSafe(w, id, request, pass);
        case Reap(resultSet) => ReapKeepsSafe(w, id, resultSet);
        case Receive(count, reply) => ReceiveKeepsSafe(w, id, count, reply);
        case Store(ini, result) => StoreKeepsSafe(w, id, ini, result);
        case Use(pass) => UseKeepsSafe(w, id, pass);
      }
  }

  /** A replay position never lies beyond the end of a live buffer. */
  ghost predicate ReadsInBounds(w: World) {
    forall id :: id in w.conns && w.conns[id].hook == Replay ==>
      && w.conns[id].recordedData.Some?
      && (w.conns[id].recordedData.value in w.process.heap.live ==>
            w.conns[id].position <= |w.process.heap.Read(w.conns[id].recordedData.value)|)
  }

  /** A lent buffer is released by a send that fails after a hit. */
  lemma FailedHitBreaksSafe(w: World, id: ConnId, request: Request, pass: bool)
    requires SafeWorld(w) && id in w.conns && !Permitted(w, On(id, Send(request, pass)))
    ensures !SafeWorld(Step(w, On(id, Send(request, pass))))
  {
    var w', key := Step(w, On(id, Send(request, pass))), request.hashKey.value;
    var a := Found(w, key).value;
    assert ConnSafe(SceneOf(w), w.conns[id]);
    SendDoesLeave(w, id, request, pass);
    assert CountSafe(SceneOf(w), w.process.table[key]);
    assert key in w'.process.table && w'.process.table[key].cachedQuery == a;
    if !pass {
      assert a !in w'.process.heap.live;
    } else {
      assert w'.process.table[key].references == 0;
      assert id in Borrowers(w'.cfg, w'.conns, a);
      assert !CountSafe(SceneOf(w'), w'.process.table[key]);
    }
  }

  lemma FailedReapBreaksSafe(w: World, id: ConnId, resultSet: bool)
    requires SafeWorld(w) && id in w.conns && !Permitted(w, On(id, Reap(resultSet)))
    ensures !SafeWorld(Step(w, On(id, Reap(resultSet))))
  {
    var w', c := Step(w, On(id, Reap(resultSet))), w.conns[id];
    assert ConnSafe(SceneOf(w), c);
    assert w'.process.table[c.hashKey.value].cachedQuery !in w'.process.heap.live;
  }

  lemma ClearBreaksSafe(w: World)
    requires SafeWorld(w) && !Permitted(w, ClearCache)
    ensures !SafeWorld(Step(w, ClearCache))
  {
    var id :| id in w.conns && w.conns[id].hook == Replay;
    assert !ConnSafe(SceneOf(Step(w, ClearCache)), w.conns[id]);
  }

  /**
   * Exactly the permitted steps keep the loans in order: no buffer is released while it is lent,
   * none is released twice or used afterwards, the counter of every entry is the number of its
   * loans, and the key a replaying connection returns is that of the entry it borrowed from.
   */
  lemma SafeIffPermitted(w: World, e: Event)
    requires SafeWorld(w) && ReadsInBounds(w)
    ensures SafeWorld(Step(w, e)) <==> Permitted(w, e)
  {
    if Permitted(w, e) {
      PermittedKeepsSafe(w, e);
    } else {
      match e
      case ClearCache => ClearBreaksSafe(w);
      case On(id, Send(request, pass)) => FailedHitBreaksSafe(w, id, request, pass);
      case On(id, Reap(resultSet)) => FailedReapBreaksSafe(w, id, resultSet);
    }
  }
}
