/**
 * Which buffers are lost: live, but in no entry of the cache and held by no connection, so that nothing
 * can ever release them.
 */
module Leaks {
  import opened Wrappers
  import opened SmartStrHeap
  import opened StdHandler
  import opened Connection
  import opened Run
  import opened LoanScene
  import opened LoanSafety
  import opened LoanRuns

  /** In no entry of the cache. */
  ghost predicate Loose(p: Process, a: Address) {
    a in p.heap.live && NotCached(p.table, a)
  }

  ghost predicate Lost(w: World, a: Address) {
    Loose(w.process, a) && NotHeld(w.conns, a)
  }

  /** The buffer a connection has for itself. */
  function Own(cfg: Config, c: Conn): set<Address> {
    if Owns(cfg, c) && c.recordedData.Some? then {c.recordedData.value} else {}
  }

  /**
   * What a step loses. A connection that goes away loses the buffer it records into or its own copy; so does
   * one that sends another query on the cache path, unless it records on; use_result loses a copy; and
   * store_result loses what it recorded if nothing allows it to be cached. A clear loses the buffers that
   * were lent and never returned.
   */
  ghost function LostBy(w: World, e: Event): set<Address> {
    match e
    case Connect(_) => {}
    case QueryIsCached(_) => {}
    case Tick(_) => {}
    case ClearCache =>
      set key | key in w.process.table && w.process.table[key].references > 0
                && NotHeld(w.conns, w.process.table[key].cachedQuery) :: w.process.table[key].cachedQuery
    case Close(id) => if id in w.conns then Own(w.cfg, w.conns[id]) else {}
    case On(id, call) =>
      if id !in w.conns then {}
      else
        var c := w.conns[id];
        match call
        case Send(request, _) =>
          if (request.isSelect || request.hasConditions) && request.hashKey.Some?
             && (c.hook == Replay || Found(w, request.hashKey.value).Some?)
          then Own(w.cfg, c) else {}
        case Store(ini, result) =>
          if result.Some? && c.activeWithCache && c.hook == Record
             && (ini.cacheNoTable || 0 !in result.value.tableLengths)
             && !c.shouldCache && !result.value.conditionsAccept
          then Own(w.cfg, c) else {}
        case Use(pass) => if pass && c.hook == Replay then Own(w.cfg, c) else {}
        case _ => {}
  }

  // ---- the handler ----

  /** Afterwards the same buffers are in no entry. */
  ghost predicate SameLoose(p: Process, p': Process) {
    forall a :: Loose(p', a) <==> Loose(p, a)
  }

  lemma DeleteLoosensNothing(p: Process, key: Key)
    requires TableSafe(p.table, p.heap) && key in p.table && p.table[key].references == 0
    ensures SameLoose(p, Delete(p, key))
  {
    var p' := Delete(p, key);
    forall a ensures Loose(p', a) <==> Loose(p, a) {
      if Loose(p', a) {
        forall k | k in p.table ensures p.table[k].cachedQuery != a {
          assert k != key ==> k in p'.table && p'.table[k] == p.table[k];
        }
      }
    }
  }

  lemma SameBuffersSameLoose(p: Process, p': Process)
    requires p'.heap.live.Keys == p.heap.live.Keys && p'.table.Keys == p.table.Keys
    requires forall key :: key in p.table ==> p'.table[key].cachedQuery == p.table[key].cachedQuery
    ensures SameLoose(p, p')
  {
    forall a ensures NotCached(p'.table, a) <==> NotCached(p.table, a) {
      if NotCached(p'.table, a) {
        forall key | key in p.table ensures p.table[key].cachedQuery != a {
          assert key in p'.table;
        }
      }
    }
  }

  lemma IsCachedLoosensNothing(cfg: Config, now: nat, p: Process, key: Key)
    requires TableSafe(p.table, p.heap)
    ensures SameLoose(p, IsCached(cfg, now, p, key).0)
  {
    if key in p.table && p.table[key].references == 0 {
      DeleteLoosensNothing(p, key);
    }
  }

  /** A lookup frees what it evicts; a copy it makes is new. */
  lemma FindLoosens(cfg: Config, now: nat, p: Process, key: Key)
    requires TableSafe(p.table, p.heap) && p.heap.next !in p.heap.live
    requires forall k :: k in p.table ==> p.table[k].cachedQuery < p.heap.next
    ensures
      var (p', found) := Find(cfg, now, p, key);
      if found.Some? && cfg.dataCopy then
        found.value == p.heap.next && forall a :: Loose(p', a) <==> Loose(p, a) || a == found.value
      else SameLoose(p, p')
  {
    if key in p.table && p.table[key].references == 0 {
      DeleteLoosensNothing(p, key);
    }
    var (p', found) := Find(cfg, now, p, key);
    if found.Some? && cfg.dataCopy {
      assert p'.table == p.table && p'.heap.live.Keys == p.heap.live.Keys + {p.heap.next};
    } else if p'.table.Keys == p.table.Keys {
      SameBuffersSameLoose(p, p');
    }
  }

  lemma ReturnLoosensNothing(cfg: Config, now: nat, p: Process, key: Key, a: Address)
    requires TableSafe(p.table, p.heap) && !cfg.dataCopy
    ensures SameLoose(p, Return(cfg, now, p, key, a))
  {
    if key in p.table {
      var entry := p.table[key].(references := Decrement(p.table[key].references));
      var p' := p.(table := p.table[key := entry]);
      SameBuffersSameLoose(p, p');
      if entry.references == 0 {
        DeleteLoosensNothing(p', key);
      }
    }
  }

  /** A buffer leaves those that are in no entry. */
  ghost predicate LooseBut(p: Process, p': Process, a: Address) {
    forall x :: Loose(p', x) <==> Loose(p, x) && x != a
  }

  lemma AddTakesBuffer(cfg: Config, now: nat, p: Process, key: Key, a: Address, ttl: nat)
    requires TableSafe(p.table, p.heap) && Loose(p, a)
    ensures
      var (p', pass) := AddIfNotExists(cfg, now, p, key, a, ttl);
      if pass then LooseBut(p, p', a) else p' == p
  {
    if CanAdd(cfg, now, p, key) {
      var q := if key in p.table then Delete(p, key) else p;
      if key in p.table {
        DeleteLoosensNothing(p, key);
      }
      var p' := AddIfNotExists(cfg, now, p, key, a, ttl).0;
      forall x ensures Loose(p', x) <==> Loose(q, x) && x != a {
        if Loose(p', x) {
          assert p'.table[key].cachedQuery == a;
          forall k | k in q.table ensures q.table[k].cachedQuery != x {
            assert p'.table[k] == q.table[k];
          }
        }
      }
    }
  }

  lemma ClearLoosens(p: Process, a: Address)
    requires TableSafe(p.table, p.heap)
    ensures
      Loose(Clear(p), a) <==>
      Loose(p, a) || exists key :: key in p.table && p.table[key].references > 0 && p.table[key].cachedQuery == a
  {
    if Loose(Clear(p), a) && !Loose(p, a) {
      var key :| key in p.table && p.table[key].cachedQuery == a;
      assert p.table[key].references > 0;
    }
  }

  // ---- the connections ----

  ghost predicate OthersHold(conns: map<ConnId, Conn>, id: ConnId, a: Address) {
    exists other :: other in conns && other != id && conns[other].recordedData == Some(a)
  }

  lemma HeldAfter(conns: map<ConnId, Conn>, id: ConnId, c: Conn, a: Address)
    ensures NotHeld(conns[id := c], a) <==> !OthersHold(conns, id, a) && c.recordedData != Some(a)
  {
    var conns' := conns[id := c];
    assert id in conns' && conns'[id] == c;
    if OthersHold(conns, id, a) {
      var other :| other in conns && other != id && conns[other].recordedData == Some(a);
      assert conns'[other] == conns[other];
    }
  }

  /** A connection's buffer is in no entry exactly if it is its own, and then no other connection holds it. */
  lemma OwnIsLoose(w: World, id: ConnId, a: Address)
    requires SafeWorld(w) && id in w.conns && w.conns[id].recordedData == Some(a)
    ensures Loose(w.process, a) <==> a in Own(w.cfg, w.conns[id])
    ensures Loose(w.process, a) ==> !OthersHold(w.conns, id, a)
  {
    assert ConnSafe(SceneOf(w), w.conns[id]);
  }

  /** One connection changes. */
  predicate OneChanges(w: World, w': World, id: ConnId) {
    id in w.conns && id in w'.conns && w'.conns == w.conns[id := w'.conns[id]]
  }

  lemma LostIff(w: World, w': World, id: ConnId, a: Address)
    requires SafeWorld(w) && OneChanges(w, w', id)
    ensures Lost(w, a) <==> Loose(w.process, a) && !OthersHold(w.conns, id, a) && w.conns[id].recordedData != Some(a)
    ensures Lost(w', a) <==> Loose(w'.process, a) && !OthersHold(w.conns, id, a) && w'.conns[id].recordedData != Some(a)
    ensures a in Own(w.cfg, w.conns[id]) ==> Loose(w.process, a) && !OthersHold(w.conns, id, a)
    ensures Loose(w.process, a) && w.conns[id].recordedData == Some(a) ==> a in Own(w.cfg, w.conns[id])
  {
    assert w.conns == w.conns[id := w.conns[id]];
    HeldAfter(w.conns, id, w.conns[id], a);
    HeldAfter(w.conns, id, w'.conns[id], a);
    if w.conns[id].recordedData == Some(a) {
      OwnIsLoose(w, id, a);
    }
  }

  /** What is lost afterwards: what was lost before, and `more`. */
  ghost predicate Loses(w: World, w': World, more: set<Address>) {
    forall a :: Lost(w', a) <==> Lost(w, a) || a in more
  }

  lemma LetsGo(w: World, w': World, id: ConnId)
    requires SafeWorld(w) && OneChanges(w, w', id)
    requires w'.conns[id].recordedData == None && SameLoose(w.process, w'.process)
    ensures Loses(w, w', Own(w.cfg, w.conns[id]))
  {
    forall a ensures Lost(w', a) <==> Lost(w, a) || a in Own(w.cfg, w.conns[id]) {
      LostIff(w, w', id, a);
    }
  }

  lemma Releases(w: World, w': World, id: ConnId, r: Address)
    requires SafeWorld(w) && OneChanges(w, w', id) && w.conns[id].recordedData == Some(r)
    requires w'.conns[id].recordedData == None && LooseBut(w.process, w'.process, r)
    ensures Loses(w, w', {})
  {
    forall a ensures Lost(w', a) <==> Lost(w, a) {
      LostIff(w, w', id, a);
    }
  }

  lemma HoldsOn(w: World, w': World, id: ConnId)
    requires SafeWorld(w) && OneChanges(w, w', id)
    requires w'.conns[id].recordedData == w.conns[id].recordedData && SameLoose(w.process, w'.process)
    ensures Loses(w, w', {})
  {
    forall a ensures Lost(w', a) <==> Lost(w, a) {
      LostIff(w, w', id, a);
    }
  }

  lemma Takes(w: World, w': World, id: ConnId, n: Address)
    requires SafeWorld(w) && OneChanges(w, w', id) && w'.conns[id].recordedData == Some(n)
    requires !Loose(w.process, n) && forall a :: a != n ==> (Loose(w'.process, a) <==> Loose(w.process, a))
    ensures Loses(w, w', Own(w.cfg, w.conns[id]))
  {
    forall a ensures Lost(w', a) <==> Lost(w, a) || a in Own(w.cfg, w.conns[id]) {
      LostIff(w, w', id, a);
    }
  }

  // ---- the calls ----

  lemma SafeFacts(w: World)
    requires SafeWorld(w)
    ensures TableSafe(w.process.table, w.process.heap) && w.process.heap.next !in w.process.heap.live
    ensures forall key :: key in w.process.table ==> w.process.table[key].cachedQuery < w.process.heap.next
  {
  }

  lemma MissLoses(w: World, w': World, id: ConnId, request: Request, pass: bool)
    requires SafeWorld(w) && id in w.conns && CachePath(request) && Armed(w.conns[id])
    requires SendLeaves(w, id, request, pass, w') && Found(w, request.hashKey.value).None?
    ensures Loses(w, w', if w.conns[id].hook == Replay then Own(w.cfg, w.conns[id]) else {})
  {
    SafeFacts(w);
    FindLoosens(w.cfg, w.now, w.process, request.hashKey.value);
    var c := w.conns[id];
    var p := Find(w.cfg, w.now, w.process, request.hashKey.value).0;
    FindKeepsHeap(w.cfg, w.now, w.process, request.hashKey.value);
    if c.hook == Record {
      assert ConnSafe(SceneOf(w), c);
      var r := c.recordedData.value;
      FindKeepsOwn(w, id, request.hashKey.value, r);
      WrittenIsSameLoose(p, r);
      if pass {
        HoldsOn(w, w', id);
      } else {
        Releases(w, w', id, r);
      }
    } else {
      var n := p.heap.next;
      if pass {
        Takes(w, w', id, n);
      } else {
        LetsGo(w, w', id);
      }
    }
  }

  lemma FindKeepsHeap(cfg: Config, now: nat, p: Process, key: Key)
    requires p.heap.next !in p.heap.live
    ensures
      var (p', found) := Find(cfg, now, p, key);
      found.None? ==> p'.heap.next == p.heap.next && p'.heap.next !in p'.heap.live
  {
  }

  /** A buffer in no entry is not evicted. */
  lemma FindKeepsOwn(w: World, id: ConnId, key: Key, r: Address)
    requires SafeWorld(w) && id in w.conns && Loose(w.process, r)
    ensures r in Find(w.cfg, w.now, w.process, key).0.heap.live
  {
    SafeFacts(w);
    FindLoosens(w.cfg, w.now, w.process, key);
    assert Loose(Find(w.cfg, w.now, w.process, key).0, r);
  }

  lemma WrittenIsSameLoose(p: Process, r: Address)
    requires r in p.heap.live
    ensures p.heap.Write(r, []).live.Keys == p.heap.live.Keys
  {
  }

  lemma HitLoses(w: World, w': World, id: ConnId, request: Request, pass: bool)
    requires SafeWorld(w) && id in w.conns && CachePath(request) && Armed(w.conns[id])
    requires SendLeaves(w, id, request, pass, w') && Found(w, request.hashKey.value).Some?
    requires pass || w.cfg.dataCopy
    ensures Loses(w, w', Own(w.cfg, w.conns[id]))
  {
    SafeFacts(w);
    FindLoosens(w.cfg, w.now, w.process, request.hashKey.value);
    var n := Found(w, request.hashKey.value).value;
    if pass {
      HitIsNotLoose(w, request.hashKey.value, n);
      Takes(w, w', id, n);
    } else {
      LetsGo(w, w', id);
    }
  }

  lemma HitIsNotLoose(w: World, key: Key, n: Address)
    requires SafeWorld(w) && Found(w, key) == Some(n)
    ensures !Loose(w.process, n)
  {
    SafeFacts(w);
  }

  lemma SendLoses(w: World, id: ConnId, request: Request, pass: bool)
    requires SafeWorld(w) && id in w.conns && Permitted(w, On(id, Send(request, pass)))
    ensures
      var e := On(id, Send(request, pass));
      Loses(w, Step(w, e), LostBy(w, e))
  {
    var w' := Step(w, On(id, Send(request, pass)));
    assert ConnSafe(SceneOf(w), w.conns[id]);
    if !CachePath(request) {
      HoldsOn(w, w', id);
    } else {
      SendDoesLeave(w, id, request, pass);
      if Found(w, request.hashKey.value).Some? {
        HitLoses(w, w', id, request, pass);
      } else {
        MissLoses(w, w', id, request, pass);
      }
    }
  }

  lemma FreedIsLooseBut(p: Process, r: Address, p': Process)
    requires Loose(p, r) && p'.table == p.table && p'.heap == p.heap.Free(r)
    ensures LooseBut(p, p', r)
  {
  }

  lemma OwnerHolds(w: World, id: ConnId)
    requires SafeWorld(w) && id in w.conns && Owns(w.cfg, w.conns[id])
    ensures w.conns[id].recordedData.Some? && w.conns[id].hashKey.Some?
    ensures Loose(w.process, w.conns[id].recordedData.value)
  {
    assert ConnSafe(SceneOf(w), w.conns[id]);
  }

  lemma ReapLoses(w: World, id: ConnId, resultSet: bool)
    requires SafeWorld(w) && id in w.conns && Permitted(w, On(id, Reap(resultSet)))
    ensures Loses(w, Step(w, On(id, Reap(resultSet))), {})
  {
    var w', c := Step(w, On(id, Reap(resultSet))), w.conns[id];
    assert ConnSafe(SceneOf(w), c);
    if !c.activeWithCache || resultSet || c.hook == Original {
      HoldsOn(w, w', id);
    } else {
      OwnerHolds(w, id);
      FreedIsLooseBut(w.process, c.recordedData.value, w'.process);
      Releases(w, w', id, c.recordedData.value);
    }
  }

  lemma ReceiveLoses(w: World, id: ConnId, count: nat, reply: Option<Bytes>)
    requires SafeWorld(w) && id in w.conns
    ensures Loses(w, Step(w, On(id, Receive(count, reply))), {})
  {
    var w' := Step(w, On(id, Receive(count, reply)));
    assert ConnSafe(SceneOf(w), w.conns[id]);
    ReceiveKeepsBuffers(w.process, w.conns[id], count, reply);
    HoldsOn(w, w', id);
  }

  lemma ReceiveKeepsBuffers(p: Process, c: Conn, count: nat, reply: Option<Bytes>)
    ensures
      var (p', c', _) := ReceiveData(p, c, count, reply);
      SameLoose(p, p') && c'.recordedData == c.recordedData
  {
  }

  lemma UseLoses(w: World, id: ConnId, pass: bool)
    requires SafeWorld(w) && id in w.conns
    ensures
      var e := On(id, Use(pass));
      Loses(w, Step(w, e), LostBy(w, e))
  {
    var w', c := Step(w, On(id, Use(pass))), w.conns[id];
    assert ConnSafe(SceneOf(w), c);
    if !pass || c.hook == Original {
      HoldsOn(w, w', id);
    } else if c.hook == Replay {
      LetsGo(w, w', id);
    } else {
      OwnerHolds(w, id);
      FreedIsLooseBut(w.process, c.recordedData.value, w'.process);
      Releases(w, w', id, c.recordedData.value);
    }
  }

  lemma ReplayStored(w: World, w': World, id: ConnId)
    requires SafeWorld(w) && OneChanges(w, w', id) && w.conns[id].hook == Replay && w'.conns[id].recordedData == None
    requires
      var p := FinishReplay(w.cfg, w.now, w.process, w.conns[id]);
      w'.process.table == p.table && w'.process.heap == p.heap
    ensures Loses(w, w', {})
  {
    var c := w.conns[id];
    assert ConnSafe(SceneOf(w), c);
    SafeFacts(w);
    var key, r, s := c.hashKey.value, c.recordedData.value, w.process.stats;
    var counted := w.process.(stats := s.(hit := s.hit + 1));
    if w.cfg.dataCopy {
      OwnerHolds(w, id);
      FreedIsLooseBut(w.process, r, w'.process);
      Releases(w, w', id, r);
    } else {
      ReturnLoosensNothing(w.cfg, w.now, counted, key, r);
      assert SameLoose(w.process, w'.process) by {
        forall a ensures Loose(w'.process, a) <==> Loose(w.process, a) {
          assert Loose(counted, a) <==> Loose(w.process, a);
          assert Loose(Return(w.cfg, w.now, counted, key, r), a) <==> Loose(w'.process, a);
        }
      }
      LetsGo(w, w', id);
      assert Own(w.cfg, c) == {};
    }
  }

  lemma RecordStored(w: World, w': World, id: ConnId, ini: Ini, result: ResultSet)
    requires SafeWorld(w) && OneChanges(w, w', id) && w.conns[id].hook == Record && w'.conns[id].recordedData == None
    requires
      var p := FinishRecord(w.cfg, w.now, w.process, w.conns[id], ini, result);
      w'.process.table == p.table && w'.process.heap == p.heap
    ensures
      Loses(w, w', if !NoTable(ini, result) && !MayCache(w.conns[id], result) then Own(w.cfg, w.conns[id]) else {})
  {
    var c := w.conns[id];
    OwnerHolds(w, id);
    SafeFacts(w);
    var key, r := c.hashKey.value, c.recordedData.value;
    if NoTable(ini, result) {
      FreedIsLooseBut(w.process, r, w'.process);
      Releases(w, w', id, r);
    } else if !MayCache(c, result) {
      LetsGo(w, w', id);
    } else {
      var ttl := ChosenTtl(c, ini, result);
      AddTakesBuffer(w.cfg, w.now, w.process, key, r, ttl);
      var (p, pass) := AddIfNotExists(w.cfg, w.now, w.process, key, r, ttl);
      AddedOrFreed(w.process, w'.process, p, pass, r);
      Releases(w, w', id, r);
    }
  }

  lemma AddedOrFreed(p: Process, p': Process, q: Process, pass: bool, r: Address)
    requires Loose(p, r) && if pass then LooseBut(p, q, r) else q == p
    requires p'.table == q.table && p'.heap == if pass then q.heap else q.heap.Free(r)
    ensures LooseBut(p, p', r)
  {
    if pass {
      forall a ensures Loose(p', a) <==> Loose(p, a) && a != r {
        assert Loose(q, a) <==> Loose(p', a);
      }
    } else {
      FreedIsLooseBut(p, r, p');
    }
  }

  lemma StoreLoses(w: World, id: ConnId, ini: Ini, result: Option<ResultSet>)
    requires SafeWorld(w) && id in w.conns
    ensures
      var e := On(id, Store(ini, result));
      Loses(w, Step(w, e), LostBy(w, e))
  {
    var w', c := Step(w, On(id, Store(ini, result))), w.conns[id];
    assert ConnSafe(SceneOf(w), c);
    if result.None? || !c.activeWithCache || c.hook == Original {
      HoldsOn(w, w', id);
    } else if c.hook == Replay {
      ReplayStored(w, w', id);
    } else {
      RecordStored(w, w', id, ini, result.value);
    }
  }

  // ---- the other events ----

  lemma CloseLoses(w: World, id: ConnId)
    requires SafeWorld(w) && id in w.conns
    ensures Loses(w, Step(w, Close(id)), Own(w.cfg, w.conns[id]))
  {
    var w' := Step(w, Close(id));
    forall a ensures Lost(w', a) <==> Lost(w, a) || a in Own(w.cfg, w.conns[id]) {
      if w.conns[id].recordedData == Some(a) {
        OwnIsLoose(w, id, a);
      }
      forall other | other in w.conns && other != id ensures other in w'.conns && w'.conns[other] == w.conns[other] {}
    }
  }

  lemma ClearLoses(w: World)
    requires SafeWorld(w)
    ensures Loses(w, Step(w, ClearCache), LostBy(w, ClearCache))
  {
    SafeFacts(w);
    forall a ensures Lost(Step(w, ClearCache), a) <==> Lost(w, a) || a in LostBy(w, ClearCache) {
      ClearLoosens(w.process, a);
    }
  }

  lemma ConnectLoses(w: World, id: ConnId)
    requires id !in w.conns
    ensures Loses(w, Step(w, Connect(id)), {})
  {
    var w' := Step(w, Connect(id));
    forall a ensures Lost(w', a) <==> Lost(w, a) {
      forall other | other in w.conns ensures other in w'.conns && w'.conns[other] == w.conns[other] {}
    }
  }

  lemma SameLoses(w: World, w': World)
    requires w'.conns == w.conns && SameLoose(w.process, w'.process)
    ensures Loses(w, w', {})
  {
  }

  /** A permitted step loses exactly these buffers. */
  lemma StepLoses(w: World, e: Event)
    requires SafeWorld(w) && Permitted(w, e)
    ensures Loses(w, Step(w, e), LostBy(w, e))
  {
    match e
    case Connect(id) => if id !in w.conns { ConnectLoses(w, id); } else { SameLoses(w, Step(w, e)); }
    case Close(id) =>
      if id in w.conns {
        CloseLoses(w, id);
      } else {
        assert w.conns - {id} == w.conns;
        SameLoses(w, Step(w, e));
      }
    case QueryIsCached(key) =>
      SafeFacts(w);
      IsCachedLoosensNothing(w.cfg, w.now, w.process, key);
      SameLoses(w, Step(w, e));
    case ClearCache => ClearLoses(w);
    case Tick(_) => SameLoses(w, Step(w, e));
    case On(id, call) =>
      if id in w.conns {
        match call
        case Send(request, pass) => SendLoses(w, id, request, pass);
        case Reap(resultSet) => ReapLoses(w, id, resultSet);
        case Receive(count, reply) => ReceiveLoses(w, id, count, reply);
        case Store(ini, result) => StoreLoses(w, id, ini, result);
        case Use(pass) => UseLoses(w, id, pass);
      } else {
        SameLoses(w, Step(w, e));
      }
  }

  // ---- whole runs ----

  /** All that the steps of a run lose. */
  ghost function LostInRun(w: World, events: seq<Event>): set<Address>
    decreases |events|
  {
    if events == [] then {}
    else
      var last := |events| - 1;
      LostInRun(w, events[..last]) + LostBy(After(w, events[..last]), events[last])
  }

  lemma StartLosesNothing(cfg: Config, now: nat, a: Address)
    ensures !Lost(Start(cfg, now), a)
  {
  }

  lemma {:induction false} RunLoses(cfg: Config, now: nat, events: seq<Event>)
    requires PermittedRun(Start(cfg, now), events)
    ensures forall a :: Lost(After(Start(cfg, now), events), a) <==> a in LostInRun(Start(cfg, now), events)
    decreases |events|
  {
    var w := Start(cfg, now);
    if events == [] {
      forall a ensures !Lost(After(w, events), a) {
        StartLosesNothing(cfg, now, a);
      }
    } else {
      var last := |events| - 1;
      RunLoses(cfg, now, events[..last]);
      PermittedRunEndsSafe(cfg, now, events[..last]);
      StepLoses(After(w, events[..last]), events[last]);
    }
  }

  ghost predicate Cached(w: World, a: Address) {
    exists key :: key in w.process.table && w.process.table[key].cachedQuery == a
  }

  ghost predicate Held(w: World, a: Address) {
    exists id :: id in w.conns && w.conns[id].recordedData == Some(a)
  }

  lemma SafeBuffersAreLive(w: World, a: Address)
    requires SafeWorld(w) && (Cached(w, a) || Held(w, a))
    ensures a in w.process.heap.live
  {
    if Held(w, a) {
      var id :| id in w.conns && w.conns[id].recordedData == Some(a);
      assert ConnSafe(SceneOf(w), w.conns[id]);
    }
  }

  /** After a permitted run, a buffer is live if and only if it is cached, held by a connection, or was lost. */
  lemma LiveBuffersAreAccounted(cfg: Config, now: nat, events: seq<Event>)
    requires PermittedRun(Start(cfg, now), events)
    ensures
      var w := After(Start(cfg, now), events);
      forall a :: a in w.process.heap.live <==>
        Cached(w, a) || Held(w, a) || a in LostInRun(Start(cfg, now), events)
  {
    var w := After(Start(cfg, now), events);
    RunLoses(cfg, now, events);
    PermittedRunEndsSafe(cfg, now, events);
    forall a
      ensures a in w.process.heap.live <==> Cached(w, a) || Held(w, a) || a in LostInRun(Start(cfg, now), events)
    {
      if Cached(w, a) || Held(w, a) {
        SafeBuffersAreLive(w, a);
      } else {
        assert Lost(w, a) <==> a in w.process.heap.live;
      }
    }
  }

  ghost predicate NothingLost(w: World) {
    forall a :: !Lost(w, a)
  }

  /** No step of the run loses a buffer. */
  ghost predicate FrugalRun(w: World, events: seq<Event>)
    decreases |events|
  {
    events == [] ||
    var last := |events| - 1;
    FrugalRun(w, events[..last]) && LostBy(After(w, events[..last]), events[last]) == {}
  }

  lemma FrugalStep(w: World, events: seq<Event>, before: set<Address>, more: set<Address>)
    requires events != [] && before == LostInRun(w, events[..|events| - 1])
    requires more == LostBy(After(w, events[..|events| - 1]), events[|events| - 1])
    ensures LostInRun(w, events) == before + more
    ensures FrugalRun(w, events) <==> FrugalRun(w, events[..|events| - 1]) && more == {}
  {
  }

  lemma {:induction false} FrugalIff(w: World, events: seq<Event>)
    ensures LostInRun(w, events) == {} <==> FrugalRun(w, events)
    decreases |events|
  {
    if events != [] {
      var before := events[..|events| - 1];
      FrugalIff(w, before);
      FrugalStep(w, events, LostInRun(w, before), LostBy(After(w, before), events[|events| - 1]));
    }
  }

  /** Nothing is lost at the end of a permitted run if and only if none of its steps loses anything. */
  lemma NothingIsLostIff(cfg: Config, now: nat, events: seq<Event>)
    requires PermittedRun(Start(cfg, now), events)
    ensures NothingLost(After(Start(cfg, now), events)) <==> FrugalRun(Start(cfg, now), events)
  {
    var w := Start(cfg, now);
    RunLoses(cfg, now, events);
    FrugalIff(w, events);
    NoneIsEmpty(After(w, events), LostInRun(w, events));
  }

  lemma NoneIsEmpty(w: World, lost: set<Address>)
    requires forall a :: Lost(w, a) <==> a in lost
    ensures NothingLost(w) <==> lost == {}
  {
    if lost != {} {
      var a :| a in lost;
      assert Lost(w, a);
    }
  }

  /** A connection that is closed before its result is stored loses what it recorded, for good. */
  lemma ClosedRecorderLosesItsBuffer(cfg: Config, now: nat, key: Key) returns (events: seq<Event>)
    ensures events == [Connect(0), On(0, Send(Request(true, false, Some(key), 0), true)), Close(0)]
    ensures PermittedRun(Start(cfg, now), events) && Lost(After(Start(cfg, now), events), 0)
  {
    var w, send := Start(cfg, now), On(0, Send(Request(true, false, Some(key), 0), true));
    events := [Connect(0), send, Close(0)];
    assert events[..2] == [Connect(0), send] && [Connect(0), send][..1] == [Connect(0)] && [Connect(0)][..0] == [];
    var w1 := Step(w, Connect(0));
    var w2 := Step(w1, send);
    assert After(w, [Connect(0)]) == w1 && After(w, [Connect(0), send]) == w2;
    assert w2.conns[0].recordedData == Some(0) && 0 in w2.process.heap.live && w2.process.table == map[];
    assert After(w, events) == Step(w2, Close(0));
  }
}
