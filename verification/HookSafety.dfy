/**
 * Hook safety: what holds after every run, whatever fails and whoever misuses the driver.
 */
module HookSafety {
  import opened Wrappers
  import opened SmartStrHeap
  import opened StdHandler
  import opened Connection
  import opened Run
  import opened LoanScene
  import opened LoanSafety

  /**
   * A plugin hook has a buffer and a key, a replay position is within a live buffer, and the
   * buffer being recorded into is not in the cache yet.
   */
  ghost predicate ConnSound(p: Process, c: Conn) {
    && Armed(c)
    && (c.recordedData.Some? ==>
          var a := c.recordedData.value;
          && a < p.heap.next
          && (c.hook == Replay && a in p.heap.live ==> c.position <= |p.heap.live[a]|)
          && (c.hook == Record ==> NotCached(p.table, a)))
  }

  ghost predicate RecordersApart(conns: map<ConnId, Conn>) {
    forall id, other :: id in conns && other in conns && id != other && conns[id].hook == Record ==>
      conns[other].recordedData != conns[id].recordedData
  }

  ghost predicate HooksSound(w: World) {
    && (forall id :: id in w.conns ==> ConnSound(w.process, w.conns[id]))
    && RecordersApart(w.conns)
    && (forall key :: key in w.process.table ==> w.process.table[key].cachedQuery < w.process.heap.next)
  }

  predicate Records(c: Conn, a: Address) {
    c.hook == Record && c.recordedData == Some(a)
  }

  /** A call of `c` changes no known buffer but the one `c` records into, and caches no other. */
  ghost predicate Tame(p: Process, c: Conn, p': Process) {
    && p.heap.next <= p'.heap.next
    && (forall a :: a < p.heap.next && a in p'.heap.live ==>
          a in p.heap.live && (Records(c, a) || p'.heap.live[a] == p.heap.live[a]))
    && (forall key :: key in p'.table ==>
          !NotCached(p.table, p'.table[key].cachedQuery) || Records(c, p'.table[key].cachedQuery))
  }

  /** The connection keeps its buffer, takes a cached or a new one, or has none. */
  ghost predicate Moves(p: Process, c: Conn, c': Conn) {
    c'.recordedData.Some? ==>
      var a := c'.recordedData.value;
      || a >= p.heap.next || Records(c, a)
      || (c'.hook == Replay && (!NotCached(p.table, a) || (c.hook == Replay && c.recordedData == Some(a))))
  }

  lemma CallKeepsSound(w: World, id: ConnId, p': Process, c': Conn)
    requires HooksSound(w) && id in w.conns
    requires Tame(w.process, w.conns[id], p') && Moves(w.process, w.conns[id], c') && ConnSound(p', c')
    ensures HooksSound(w.(process := p', conns := w.conns[id := c']))
  {
    var p, c := w.process, w.conns[id];
    assert ConnSound(p, c);
    forall other | other in w.conns && other != id ensures ConnSound(p', w.conns[other]) {
      assert ConnSound(p, w.conns[other]);
    }
    forall other | other in w.conns && other != id && (w.conns[other].hook == Record || c'.hook == Record)
      ensures w.conns[other].recordedData != c'.recordedData || c'.recordedData.None?
    {
      assert ConnSound(p, w.conns[other]);
    }
    forall key | key in p'.table ensures p'.table[key].cachedQuery < p'.heap.next {
      if !NotCached(p.table, p'.table[key].cachedQuery) {
        var k :| k in p.table && p.table[k].cachedQuery == p'.table[key].cachedQuery;
      }
    }
  }

  lemma FindIsTame(cfg: Config, now: nat, p: Process, c: Conn, key: Key)
    ensures
      var (p', found) := Find(cfg, now, p, key);
      && Tame(p, c, p')
      && (found.Some? ==> if cfg.dataCopy then found.value == p.heap.next else !NotCached(p.table, found.value))
      && (found.None? ==> p'.heap.next == p.heap.next)
      && forall k :: k in p'.table ==> !NotCached(p.table, p'.table[k].cachedQuery)
  {
  }

  /** The outcome of a call, as CallKeepsSound wants it. */
  ghost predicate CallTame(w: World, id: ConnId, call: Call)
    requires id in w.conns
  {
    var (p', c') := Act(w.cfg, w.now, w.process, w.conns[id], call);
    Tame(w.process, w.conns[id], p') && Moves(w.process, w.conns[id], c') && ConnSound(p', c')
  }

  lemma SendIsTame(w: World, id: ConnId, request: Request, pass: bool)
    requires HooksSound(w) && id in w.conns
    ensures CallTame(w, id, Send(request, pass))
  {
    var p, c := w.process, w.conns[id];
    var (p', c') := SendQuery(w.cfg, w.now, p, c, request, pass);
    assert ConnSound(p, c);
    if CachePath(request) {
      FindIsTame(w.cfg, w.now, p, c, request.hashKey.value);
      SendQueryLeaves(w.cfg, w.now, p, c, request, pass);
      SentIsSound(w, id, request, pass, p', c');
    }
  }

  lemma SentIsSound(w: World, id: ConnId, request: Request, pass: bool, p': Process, c': Conn)
    requires HooksSound(w) && id in w.conns && ConnSound(w.process, w.conns[id]) && CachePath(request)
    requires
      var (p1, found) := Find(w.cfg, w.now, w.process, request.hashKey.value);
      var a, heap := Taken(p1, found, w.conns[id]), TakenHeap(p1, found, w.conns[id]);
      && Tame(w.process, w.conns[id], p1)
      && (found.Some? ==> if w.cfg.dataCopy then a == w.process.heap.next else !NotCached(w.process.table, a))
      && (found.None? ==> p1.heap.next == w.process.heap.next)
      && (forall k :: k in p1.table ==> !NotCached(w.process.table, p1.table[k].cachedQuery))
      && p'.table == p1.table && p'.heap == (if pass then heap else heap.Free(a)) && Sent(c', found, a, request, pass)
      && (found.Some? && pass ==> c'.position == 0)
    ensures Tame(w.process, w.conns[id], p') && Moves(w.process, w.conns[id], c') && ConnSound(p', c')
  {
  }

  lemma ReapIsTame(w: World, id: ConnId, resultSet: bool)
    requires HooksSound(w) && id in w.conns
    ensures CallTame(w, id, Reap(resultSet))
  {
    assert ConnSound(w.process, w.conns[id]);
  }

  lemma ReceiveIsTame(w: World, id: ConnId, count: nat, reply: Option<Bytes>)
    requires HooksSound(w) && id in w.conns
    ensures CallTame(w, id, Receive(count, reply))
  {
    assert ConnSound(w.process, w.conns[id]);
  }

  lemma ReturnIsTame(cfg: Config, now: nat, p: Process, c: Conn, key: Key, a: Address)
    ensures Tame(p, c, Return(cfg, now, p, key, a))
  {
  }

  lemma StoreIsTame(w: World, id: ConnId, ini: Ini, result: Option<ResultSet>)
    requires HooksSound(w) && id in w.conns
    ensures CallTame(w, id, Store(ini, result))
  {
    var c := w.conns[id];
    assert ConnSound(w.process, c);
    if result.Some? && c.activeWithCache {
      if c.hook == Replay {
        var stats := FinishReplay(w.cfg, w.now, w.process, c).stats;
        ReturnSeesHandlerOnly(w.cfg, w.now, w.process, c.hashKey.value, c.recordedData.value, stats);
        ReturnIsTame(w.cfg, w.now, w.process, c, c.hashKey.value, c.recordedData.value);
      } else if c.hook == Record {
        FinishRecordIsTame(w, c, ini, result.value);
      }
    }
  }

  lemma FinishRecordIsTame(w: World, c: Conn, ini: Ini, result: ResultSet)
    requires HooksSound(w) && ConnSound(w.process, c) && c.hook == Record
    ensures Tame(w.process, c, FinishRecord(w.cfg, w.now, w.process, c, ini, result))
  {
  }

  lemma UseIsTame(w: World, id: ConnId, pass: bool)
    requires HooksSound(w) && id in w.conns
    ensures CallTame(w, id, Use(pass))
  {
    assert ConnSound(w.process, w.conns[id]);
  }

  lemma CallIsTame(w: World, id: ConnId, call: Call)
    requires HooksSound(w) && id in w.conns
    ensures CallTame(w, id, call)
  {
    match call
    case Send(request, pass) => SendIsTame(w, id, request, pass);
    case Reap(resultSet) => ReapIsTame(w, id, resultSet);
    case Receive(count, reply) => ReceiveIsTame(w, id, count, reply);
    case Store(ini, result) => StoreIsTame(w, id, ini, result);
    case Use(pass) => UseIsTame(w, id, pass);
  }

  lemma HandlerStepIsSound(w: World, p': Process)
    requires HooksSound(w) && p'.heap.next == w.process.heap.next
    requires forall a :: a in p'.heap.live ==> a in w.process.heap.live && p'.heap.live[a] == w.process.heap.live[a]
    requires forall key :: key in p'.table ==> key in w.process.table && p'.table[key] == w.process.table[key]
    ensures HooksSound(w.(process := p'))
  {
    forall id | id in w.conns ensures ConnSound(p', w.conns[id]) {
      assert ConnSound(w.process, w.conns[id]);
    }
  }

  lemma StepIsSound(w: World, e: Event)
    requires HooksSound(w)
    ensures HooksSound(Step(w, e))
  {
    match e
    case Connect(id) =>
    case Close(id) =>
    case Tick(_) =>
    case QueryIsCached(key) => HandlerStepIsSound(w, IsCached(w.cfg, w.now, w.process, key).0);
    case ClearCache => HandlerStepIsSound(w, Clear(w.process));
    case On(id, call) =>
      if id in w.conns {
        CallIsTame(w, id, call);
        var (p', c') := Act(w.cfg, w.now, w.process, w.conns[id], call);
        CallKeepsSound(w, id, p', c');
      }
  }

  /** After any run at all, permitted or not. */
  lemma {:induction false} HooksAreAlwaysSound(cfg: Config, now: nat, events: seq<Event>)
    ensures HooksSound(After(Start(cfg, now), events))
    decreases |events|
  {
    if events != [] {
      var last := |events| - 1;
      HooksAreAlwaysSound(cfg, now, events[..last]);
      StepIsSound(After(Start(cfg, now), events[..last]), events[last]);
    }
  }

  /**
   * So the unsigned availability test of a replay read never wraps: the read delivers the next
   * `count` bytes of the buffer if it has that many, and otherwise changes nothing.
   */
  lemma ReplayReadIsExact(cfg: Config, now: nat, events: seq<Event>, id: ConnId, count: nat)
    requires
      var w := After(Start(cfg, now), events);
      && id in w.conns && w.conns[id].hook == Replay && w.conns[id].recordedData.Some?
      && w.conns[id].recordedData.value in w.process.heap.live
    ensures
      var w := After(Start(cfg, now), events);
      var p, c := w.process, w.conns[id];
      var data := p.heap.live[c.recordedData.value];
      && c.position <= |data|
      && ReceiveReplay(p, c, count) ==
         if c.position + count <= |data|
         then (p, c.(position := c.position + count), Some(data[c.position..][..count]))
         else (p, c, None)
  {
    HooksAreAlwaysSound(cfg, now, events);
    var w := After(Start(cfg, now), events);
    SoundReadIsExact(w.process, w.conns[id], count);
  }

  lemma SoundReadIsExact(p: Process, c: Conn, count: nat)
    requires ConnSound(p, c) && c.hook == Replay && c.recordedData.Some? && c.recordedData.value in p.heap.live
    ensures
      var data := p.heap.live[c.recordedData.value];
      && c.position <= |data|
      && ReceiveReplay(p, c, count) ==
         if c.position + count <= |data|
         then (p, c.(position := c.position + count), Some(data[c.position..][..count]))
         else (p, c, None)
  {
    var data := p.heap.live[c.recordedData.value];
    if c.position + count <= |data| {
      assert data[c.position..][..count] == data[c.position..c.position + count];
    }
  }
}
