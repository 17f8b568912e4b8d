/**
 * All connections of a process over one shared cache: the steps of a run, in any order
 * and with any answers from the servers, and a history that only observes them.
 *
 * A call of one connection is one step. It touches the shared table and heap only through
 * one handler operation, which the source runs under its lock; everything else it reads or
 * writes belongs to the connection. Reads from the network are steps of their own.
 */
module Run {
  import opened Wrappers
  import opened SmartStrHeap
  import opened StdHandler
  import opened Connection

  type ConnId = nat

  datatype Call =
    | Send(request: Request, pass: bool)
    | Reap(resultSet: bool)
    | Receive(count: nat, reply: Option<Bytes>)
    | Store(ini: Ini, result: Option<ResultSet>)
    | Use(pass: bool)

  datatype Event =
    | Connect(id: ConnId)
    | Close(id: ConnId)
    | On(id: ConnId, call: Call)
    | QueryIsCached(key: Key)
    | ClearCache
    | Tick(time: nat)

  /** What passes between the clients and the servers. */
  datatype WireEvent =
    | Query(id: ConnId, key: Option<Key>)
    | Data(id: ConnId, bytes: Bytes)

  /** What happens to the cache, as seen from outside. */
  datatype LogItem =
    | Added(key: Key, bytes: Bytes, addedAt: nat, ttl: nat, id: ConnId, wireLength: nat, request: Request)
    | Asked(key: Key)
    | Cleared

  /** When a connection was last given cached data: the log it was given on, and the time. */
  datatype Grant = Grant(key: Key, logLength: nat, time: nat)

  /**
   * `asked` has the key of the latest query that each connection sent, or None if it went past the cache;
   * `requests` has the latest one that did not.
   */
  datatype History = History(
    asked: map<ConnId, Option<Key>>,
    requests: map<ConnId, Request>,
    wire: seq<WireEvent>,
    log: seq<LogItem>,
    grants: map<ConnId, Grant>,
    replayed: map<ConnId, Bytes>,
    abandoned: multiset<Address>,
    unreaped: int,
    awaiting: set<ConnId>)

  datatype World = World(cfg: Config, now: nat, process: Process, conns: map<ConnId, Conn>, history: History)

  function Start(cfg: Config, now: nat): World {
    World(cfg, now, EMPTY_PROCESS, map[], History(map[], map[], [], [], map[], map[], multiset{}, 0, {}))
  }

  function Act(cfg: Config, now: nat, p: Process, c: Conn, call: Call): (Process, Conn) {
    match call
    case Send(request, pass) => SendQuery(cfg, now, p, c, request, pass)
    case Reap(resultSet) => ReapQuery(p, c, resultSet)
    case Receive(count, reply) => var r := ReceiveData(p, c, count, reply); (r.0, r.1)
    case Store(ini, result) => StoreResult(cfg, now, p, c, ini, result)
    case Use(pass) => UseResult(p, c, pass)
  }

  /** The step itself, without the history. */
  ghost function Next(w: World, e: Event): World {
    match e
    case Connect(id) => if id in w.conns then w else w.(conns := w.conns[id := NEW_CONN])
    case Close(id) => w.(conns := w.conns - {id})
    case QueryIsCached(key) => w.(process := IsCached(w.cfg, w.now, w.process, key).0)
    case ClearCache => w.(process := Clear(w.process))
    case Tick(time) => w.(now := time)
    case On(id, call) =>
      if id !in w.conns then w
      else
        var (p, c) := Act(w.cfg, w.now, w.process, w.conns[id], call);
        w.(process := p, conns := w.conns[id := c])
  }

  /** The cached data a lookup would lend or copy now. */
  function Found(w: World, key: Key): Option<Address> {
    Find(w.cfg, w.now, w.process, key).1
  }

  /** A lent buffer that the connection lets go without returning it. */
  function Dropped(cfg: Config, c: Conn): multiset<Address> {
    if c.hook == Replay && !cfg.dataCopy && c.recordedData.Some? then multiset{c.recordedData.value} else multiset{}
  }

  /** Whether this store_result puts the recorded data into the cache. */
  predicate Adds(w: World, c: Conn, ini: Ini, result: Option<ResultSet>) {
    && result.Some? && c.activeWithCache && c.hook == Record && c.hashKey.Some? && c.recordedData.Some?
    && !NoTable(ini, result.value) && MayCache(c, result.value)
    && CanAdd(w.cfg, w.now, w.process, c.hashKey.value)
  }

  function ObserveSend(w: World, id: ConnId, c: Conn, request: Request, pass: bool): History {
    var h := w.history;
    if !CachePath(request) then
      h.(asked := if pass then h.asked[id := None] else h.asked,
         wire := if pass && c.hook != Replay then h.wire + [Query(id, None)] else h.wire,
         awaiting := h.awaiting - {id})
    else
      var key := request.hashKey.value;
      var hit := Found(w, key).Some?;
      h.(log := h.log + [Asked(key)],
         asked := if pass then h.asked[id := Some(key)] else h.asked,
         requests := if pass then h.requests[id := request] else h.requests,
         wire := if pass && !hit then h.wire + [Query(id, Some(key))] else h.wire,
         grants := if hit then h.grants[id := Grant(key, |h.log|, w.now)] else h.grants,
         replayed := if hit then h.replayed[id := []] else h.replayed,
         abandoned := h.abandoned + Dropped(w.cfg, c),
         unreaped := if pass then h.unreaped + 1 else h.unreaped,
         awaiting := if pass then h.awaiting + {id} else h.awaiting - {id})
  }

  function ObserveReceive(w: World, id: ConnId, c: Conn, count: nat, reply: Option<Bytes>): History {
    var h := w.history;
    var bytes := ReceiveData(w.process, c, count, reply).2;
    if bytes.None? then h
    else if c.hook == Replay then
      h.(replayed := h.replayed[id := (if id in h.replayed then h.replayed[id] else []) + bytes.value])
    else
      h.(wire := h.wire + [Data(id, bytes.value)])
  }

  const NO_REQUEST := Request(false, false, None, 0)

  function RequestOf(h: History, id: ConnId): Request {
    if id in h.requests then h.requests[id] else NO_REQUEST
  }

  function ObserveStore(w: World, id: ConnId, c: Conn, ini: Ini, result: Option<ResultSet>): History {
    var h := w.history;
    if Adds(w, c, ini, result) then
      h.(log := h.log + [Added(c.hashKey.value, w.process.heap.Read(c.recordedData.value), w.now,
                               ChosenTtl(c, ini, result.value), id, |h.wire|, RequestOf(h, id))])
    else
      h
  }

  function Observe(w: World, e: Event): History {
    var h := w.history;
    match e
    case Connect(_) => h
    case Tick(_) => h
    case QueryIsCached(_) => h
    case ClearCache => h.(log := h.log + [Cleared])
    case Close(id) =>
      if id !in w.conns then h
      else
        h.(asked := h.asked - {id},
           abandoned := h.abandoned + Dropped(w.cfg, w.conns[id]),
           awaiting := h.awaiting - {id})
    case On(id, call) =>
      if id !in w.conns then h
      else
        var c := w.conns[id];
        match call
        case Send(request, pass) => ObserveSend(w, id, c, request, pass)
        case Reap(_) =>
          if c.activeWithCache && id in h.awaiting then h.(unreaped := h.unreaped - 1, awaiting := h.awaiting - {id})
          else h
        case Receive(count, reply) => ObserveReceive(w, id, c, count, reply)
        case Store(ini, result) => ObserveStore(w, id, c, ini, result)
        case Use(pass) => if pass then h.(abandoned := h.abandoned + Dropped(w.cfg, c)) else h
  }

  ghost function Step(w: World, e: Event): World {
    Next(w, e).(history := Observe(w, e))
  }

  /** The world after a whole run. */
  ghost function After(w: World, events: seq<Event>): World
    decreases |events|
  {
    if events == [] then w else Step(After(w, events[..|events| - 1]), events[|events| - 1])
  }
}
