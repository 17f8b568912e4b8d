/**
 * One client connection (mysqlnd_qc.c): its receive hook, the buffer it records into or
 * replays from, and the calls of the driver that move them.
 *
 * As in StdHandler, each call is a function on values, together with a method of class
 * Connection that updates the fields in place and is proved to compute that function.
 * What the server and the rest of the driver answer is a parameter of each call.
 */
module Connection {
  import opened Wrappers
  import opened SmartStrHeap
  import opened StdHandler

  /** The function behind net->m.receive: the driver's own one, or one of the plugin's. */
  datatype Hook = Original | Record | Replay

  datatype Conn = Conn(
    hook: Hook,
    recordedData: Option<Address>,
    position: nat,
    hashKey: Option<Key>,
    activeWithCache: bool,
    shouldCache: bool,
    ttl: nat)

  const NEW_CONN := Conn(Original, None, 0, None, false, false, 0)

  /** What the analysis of the query text yields: see QueryPolicy and HashKey. */
  datatype Request = Request(isSelect: bool, hasConditions: bool, hashKey: Option<Key>, ttl: nat)

  /** The settings of php.ini that a script may change between two calls. */
  datatype Ini = Ini(cacheNoTable: bool, ttl: nat)

  /** The parsed result set: the table-name length of each column, and the verdict of the cache conditions. */
  datatype ResultSet = ResultSet(tableLengths: seq<nat>, conditionsAccept: bool, conditionTtl: nat)

  predicate CachePath(request: Request) {
    (request.isSelect || request.hasConditions) && request.hashKey.Some?
  }

  function FreeIfSet(heap: Heap, a: Option<Address>): Heap {
    match a
    case None => heap
    case Some(address) => heap.Free(address)
  }

  function CountQuery(stats: Statistics, isSelect: bool): Statistics {
    if isSelect then stats.(shouldCache := stats.shouldCache + 1)
    else stats.(shouldNotCache := stats.shouldNotCache + 1)
  }

  /** mysqlnd_qc_handle_query; `pass` is the outcome of the driver's own send_query. */
  function SendQuery(cfg: Config, now: nat, p: Process, c: Conn, request: Request, pass: bool): (Process, Conn) {
    var stats := CountQuery(p.stats, request.isSelect);
    var c := c.(shouldCache := request.isSelect, ttl := request.ttl);
    if !CachePath(request) then
      (p.(stats := stats.(notCached := stats.notCached + 1)), c.(activeWithCache := false))
    else
      var (p, c) := Arm(cfg, now, p.(stats := stats), c.(activeWithCache := true), request.hashKey.value);
      if pass then
        (p, c.(hashKey := request.hashKey))
      else
        (p.(heap := FreeIfSet(p.heap, c.recordedData), stats := p.stats.(uncachedOther := p.stats.uncachedOther + 1)),
         c.(hook := Original, recordedData := None))
  }

  /** The lookup of mysqlnd_qc_handle_query: a hit arms the replay hook, a miss the record hook. */
  function Arm(cfg: Config, now: nat, p: Process, c: Conn, key: Key): (Process, Conn) {
    var (p, cachedQuery) := Find(cfg, now, p, key);
    match cachedQuery
    case Some(address) =>
      (p.(stats := p.stats.(foundInCache := p.stats.foundInCache + 1)),
       c.(hook := Replay, recordedData := cachedQuery, position := 0))
    case None =>
      if c.hook == Record then
        (p.(heap := Reset(p.heap, c.recordedData)), c)
      else
        (p.(heap := p.heap.Alloc([])), c.(hook := Record, recordedData := Some(p.heap.next)))
  }

  /** Releases the content of a container, which stays allocated. */
  function Reset(heap: Heap, a: Option<Address>): Heap {
    match a
    case None => heap.Raise()
    case Some(address) => heap.Write(address, [])
  }

  /** mysqlnd_qc::reap_query; `resultSet` says that the driver's call passed with a non-zero field count. */
  function ReapQuery(p: Process, c: Conn, resultSet: bool): (Process, Conn) {
    if !c.activeWithCache then
      (p, c)
    else if resultSet then
      (p.(stats := p.stats.(couldCache := p.stats.couldCache + 1)), c)
    else
      (p.(heap := FreeIfSet(p.heap, c.recordedData), stats := p.stats.(uncachedOther := p.stats.uncachedOther + 1)),
       c.(hook := Original, recordedData := None))
  }

  /** `len - position` in 64-bit unsigned arithmetic. */
  function Available(len: nat, position: nat): int {
    if position <= len then len - position else len - position + 0x1_0000_0000_0000_0000
  }

  /** What the server answers to a request for `count` bytes: exactly that many, or a failure. */
  function FromServer(count: nat, reply: Option<Bytes>): Option<Bytes> {
    if reply.Some? && |reply.value| == count then reply else None
  }

  /** A read of `count` bytes through the current hook, and what it delivers. */
  function ReceiveData(p: Process, c: Conn, count: nat, reply: Option<Bytes>): (Process, Conn, Option<Bytes>) {
    match c.hook
    case Original => (p, c, FromServer(count, reply))
    case Record =>
      var bytes := FromServer(count, reply);
      if bytes.None? then (p, c, None) else (p.(heap := Append(p.heap, c.recordedData, bytes.value)), c, bytes)
    case Replay => ReceiveReplay(p, c, count)
  }

  function Append(heap: Heap, a: Option<Address>, bytes: Bytes): Heap {
    match a
    case None => heap.Raise()
    case Some(address) => heap.Write(address, heap.Read(address) + bytes)
  }

  function ReceiveReplay(p: Process, c: Conn, count: nat): (Process, Conn, Option<Bytes>) {
    match c.recordedData
    case None => (p.(heap := p.heap.Raise()), c, None)
    case Some(address) =>
      var p := p.(heap := p.heap.Touch(address));
      var data := p.heap.Read(address);
      if Available(|data|, c.position) < count then
        (p, c, None)
      else if c.position + count <= |data| then
        (p, c.(position := c.position + count), Some(data[c.position..c.position + count]))
      else
        (p.(heap := p.heap.Raise()), c, None)
  }

  predicate NoTable(ini: Ini, result: ResultSet) {
    !ini.cacheNoTable && 0 in result.tableLengths
  }

  predicate MayCache(c: Conn, result: ResultSet) {
    c.shouldCache || result.conditionsAccept
  }

  /** The hint's TTL, else that of the matching condition, else the default. */
  function ChosenTtl(c: Conn, ini: Ini, result: ResultSet): nat {
    if c.ttl != 0 then c.ttl
    else if !c.shouldCache && result.conditionTtl != 0 then result.conditionTtl
    else ini.ttl
  }

  /** mysqlnd_qc::store_result; `result` is what the driver's own store_result returned. */
  function StoreResult(cfg: Config, now: nat, p: Process, c: Conn, ini: Ini, result: Option<ResultSet>)
    : (Process, Conn)
  {
    match result
    case None =>
      (p.(stats := p.stats.(miss := p.stats.miss + 1, uncachedNoResult := p.stats.uncachedNoResult + 1)), c)
    case Some(set_) =>
      if !c.activeWithCache then
        (p, c)
      else
        var p := match c.hook
                 case Original => p
                 case Replay => FinishReplay(cfg, now, p, c)
                 case Record => FinishRecord(cfg, now, p, c, ini, set_);
        (p, c.(hook := Original, recordedData := None, hashKey := None))
  }

  function FinishReplay(cfg: Config, now: nat, p: Process, c: Conn): Process {
    var p := p.(stats := p.stats.(hit := p.stats.hit + 1));
    if c.hashKey.None? || c.recordedData.None? then p.(heap := p.heap.Raise())
    else Return(cfg, now, p, c.hashKey.value, c.recordedData.value)
  }

  function FinishRecord(cfg: Config, now: nat, p: Process, c: Conn, ini: Ini, result: ResultSet): Process {
    if c.hashKey.None? || c.recordedData.None? then p.(heap := p.heap.Raise())
    else if NoTable(ini, result) then
      p.(heap := p.heap.Free(c.recordedData.value),
         stats := p.stats.(miss := p.stats.miss + 1, uncachedNoTable := p.stats.uncachedNoTable + 1))
    else if !MayCache(c, result) then p
    else
      var (p, pass) := AddIfNotExists(cfg, now, p, c.hashKey.value, c.recordedData.value, ChosenTtl(c, ini, result));
      if pass then
        p.(stats := p.stats.(miss := p.stats.miss + 1, put := p.stats.put + 1))
      else
        // the source counts this hit twice
        p.(heap := p.heap.Free(c.recordedData.value), stats := p.stats.(hit := p.stats.hit + 2))
  }

  /** mysqlnd_qc::use_result; `pass` says that the driver's own call returned a result. */
  function UseResult(p: Process, c: Conn, pass: bool): (Process, Conn) {
    var p := p.(stats := p.stats.(miss := p.stats.miss + 1, uncachedUseResult := p.stats.uncachedUseResult + 1));
    if !pass then
      (p, c)
    else
      var c := c.(hashKey := None);
      match c.hook
      case Original => (p, c)
      case Replay => (p, c.(hook := Original, recordedData := None))
      case Record =>
        (p.(heap := if c.recordedData.None? then p.heap.Raise() else p.heap.Free(c.recordedData.value)),
         c.(hook := Original, recordedData := None))
  }

  /** The plugin data of a connection and of its network layer. */
  class Connection {
    var hook: Hook
    var recordedData: Option<Address>
    var position: nat
    var hashKey: Option<Key>
    var activeWithCache: bool
    var shouldCache: bool
    var ttl: nat

    constructor ()
      ensures View() == NEW_CONN
    {
      hook, recordedData, position, hashKey := Original, None, 0, None;
      activeWithCache, shouldCache, ttl := false, false, 0;
    }

    ghost function View(): Conn
      reads this
    {
      Conn(hook, recordedData, position, hashKey, activeWithCache, shouldCache, ttl)
    }

    /** FREE_SMART_STR_AND_CONTAINER_AND_NULL followed by MYSQLND_QC_NET_RESTORE_ORIGINAL. */
    method Abort(cache: QueryCache)
      modifies this`hook, this`recordedData, cache`heap
      ensures hook == Original && recordedData == None
      ensures cache.heap == FreeIfSet(old(cache.heap), old(recordedData))
    {
      if recordedData.Some? {
        cache.heap := cache.heap.Free(recordedData.value);
        recordedData := None;
      }
      hook := Original;
    }

    method HandleQuery(cache: QueryCache, now: nat, request: Request, pass: bool)
      modifies this, cache
      ensures (cache.View(), View()) == SendQuery(cache.cfg, now, old(cache.View()), old(View()), request, pass)
    {
      shouldCache, ttl := request.isSelect, request.ttl;
      if shouldCache {
        cache.stats := cache.stats.(shouldCache := cache.stats.shouldCache + 1);
      } else {
        cache.stats := cache.stats.(shouldNotCache := cache.stats.shouldNotCache + 1);
      }
      if (!shouldCache && !request.hasConditions) || request.hashKey.None? {
        activeWithCache := false;
        cache.stats := cache.stats.(notCached := cache.stats.notCached + 1);
        return;
      }
      activeWithCache := true;
      LookUp(cache, now, request.hashKey.value);
      if pass {
        hashKey := request.hashKey;
      } else {
        cache.stats := cache.stats.(uncachedOther := cache.stats.uncachedOther + 1);
        Abort(cache);
      }
    }

    method LookUp(cache: QueryCache, now: nat, key: Key)
      modifies this`hook, this`recordedData, this`position, cache
      ensures (cache.View(), View()) == Arm(cache.cfg, now, old(cache.View()), old(View()), key)
    {
      var cachedQuery := cache.FindQueryInCache(key, now);
      if cachedQuery.Some? {
        cache.stats := cache.stats.(foundInCache := cache.stats.foundInCache + 1);
        hook := Replay;
        recordedData := cachedQuery;
        position := 0;
      } else if hook == Record {
        cache.heap := if recordedData.None? then cache.heap.Raise() else cache.heap.Write(recordedData.value, []);
      } else {
        recordedData := Some(cache.heap.next);
        cache.heap := cache.heap.Alloc([]);
        hook := Record;
      }
    }

    method Reap(cache: QueryCache, resultSet: bool)
      modifies this, cache
      ensures (cache.View(), View()) == ReapQuery(old(cache.View()), old(View()), resultSet)
    {
      if activeWithCache {
        if resultSet {
          cache.stats := cache.stats.(couldCache := cache.stats.couldCache + 1);
        } else {
          cache.stats := cache.stats.(uncachedOther := cache.stats.uncachedOther + 1);
          Abort(cache);
        }
      }
    }

    method Read(cache: QueryCache, count: nat, reply: Option<Bytes>) returns (bytes: Option<Bytes>)
      modifies this`position, cache`heap
      ensures (cache.View(), View(), bytes) == ReceiveData(old(cache.View()), old(View()), count, reply)
    {
      if hook == Replay {
        bytes := ReadReplay(cache, count);
      } else {
        bytes := FromServer(count, reply);
        if hook == Record && bytes.Some? {
          cache.heap := Append(cache.heap, recordedData, bytes.value);
        }
      }
    }

    method ReadReplay(cache: QueryCache, count: nat) returns (bytes: Option<Bytes>)
      modifies this`position, cache`heap
      ensures (cache.View(), View(), bytes) == ReceiveReplay(old(cache.View()), old(View()), count)
    {
      bytes := None;
      if recordedData.None? {
        cache.heap := cache.heap.Raise();
        return;
      }
      cache.heap := cache.heap.Touch(recordedData.value);
      var data := cache.heap.Read(recordedData.value);
      if Available(|data|, position) < count {
        return;
      }
      if position + count <= |data| {
        bytes := Some(data[position..position + count]);
        position := position + count;
      } else {
        cache.heap := cache.heap.Raise();
      }
    }

    method Store(cache: QueryCache, now: nat, ini: Ini, result: Option<ResultSet>)
      modifies this, cache
      ensures (cache.View(), View()) == StoreResult(cache.cfg, now, old(cache.View()), old(View()), ini, result)
    {
      if result.None? {
        cache.stats := cache.stats.(miss := cache.stats.miss + 1, uncachedNoResult := cache.stats.uncachedNoResult + 1);
        return;
      }
      if activeWithCache {
        if hook == Replay {
          cache.stats := cache.stats.(hit := cache.stats.hit + 1);
          if hashKey.Some? && recordedData.Some? {
            cache.ReturnToCache(hashKey.value, recordedData.value, now);
          } else {
            cache.heap := cache.heap.Raise();
          }
        } else if hook == Record {
          StoreRecorded(cache, now, ini, result.value);
        }
        recordedData := None;
        hook := Original;
        hashKey := None;
      }
    }

    method StoreRecorded(cache: QueryCache, now: nat, ini: Ini, result: ResultSet)
      modifies cache
      ensures cache.View() == FinishRecord(cache.cfg, now, old(cache.View()), View(), ini, result)
    {
      if hashKey.None? || recordedData.None? {
        cache.heap := cache.heap.Raise();
        return;
      }
      var noTable := FieldWithoutTable(ini, result);
      if noTable {
        cache.stats := cache.stats.(miss := cache.stats.miss + 1, uncachedNoTable := cache.stats.uncachedNoTable + 1);
        cache.heap := cache.heap.Free(recordedData.value);
        return;
      }
      if shouldCache || result.conditionsAccept {
        var chosen := if shouldCache then 0 else result.conditionTtl;
        if ttl != 0 {
          chosen := ttl;
        } else if chosen == 0 {
          chosen := ini.ttl;
        }
        var pass := cache.AddQueryToCacheIfNotExists(hashKey.value, recordedData.value, chosen, now);
        if pass {
          cache.stats := cache.stats.(miss := cache.stats.miss + 1, put := cache.stats.put + 1);
        } else {
          cache.stats := cache.stats.(hit := cache.stats.hit + 1);
          cache.stats := cache.stats.(hit := cache.stats.hit + 1);
          cache.heap := cache.heap.Free(recordedData.value);
        }
      }
    }

    method FieldWithoutTable(ini: Ini, result: ResultSet) returns (noTable: bool)
      ensures noTable <==> NoTable(ini, result)
    {
      noTable := false;
      if !ini.cacheNoTable {
        var i := 0;
        while i < |result.tableLengths| && !noTable
          invariant 0 <= i <= |result.tableLengths|
          invariant noTable <==> 0 in result.tableLengths[..i]
        {
          noTable := result.tableLengths[i] == 0;
          i := i + 1;
        }
      }
    }

    method Use(cache: QueryCache, pass: bool)
      modifies this, cache
      ensures (cache.View(), View()) == UseResult(old(cache.View()), old(View()), pass)
    {
      cache.stats := cache.stats.(miss := cache.stats.miss + 1, uncachedUseResult := cache.stats.uncachedUseResult + 1);
      if pass {
        hashKey := None;
        if hook == Replay {
          hook := Original;
          recordedData := None;
        } else if hook == Record {
          hook := Original;
          cache.heap := if recordedData.None? then cache.heap.Raise() else cache.heap.Free(recordedData.value);
          recordedData := None;
        }
      }
    }
  }
}
