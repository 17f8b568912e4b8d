/**
 * The default storage handler (mysqlnd_qc_std_handler.c): one hash table shared by all
 * connections, guarded by one lock, so that each operation below is one atomic step.
 *
 * Every operation appears twice: as a function on the handler state, which the proofs
 * over whole runs reason about, and as a method of class QueryCache that updates the
 * table in place as the source does and is proved to compute that function.
 */
module StdHandler {
  import opened Wrappers
  import opened SmartStrHeap

  type Key = string

  /** `references` is a C unsigned int. */
  const REFERENCE_LIMIT: nat := 0x1_0000_0000

  datatype Entry = Entry(cachedQuery: Address, deadline: nat, inRefresh: bool, references: nat)

  /** Both settings can only be changed in php.ini, so they are constants of a run. */
  datatype Config = Config(slamDefense: bool, dataCopy: bool)

  /** The statistics of mysqlnd_qc.c that the conservation laws are about. */
  datatype Statistics = Statistics(
    hit: nat, miss: nat, put: nat, shouldCache: nat, shouldNotCache: nat, notCached: nat, couldCache: nat,
    foundInCache: nat, uncachedOther: nat, uncachedNoTable: nat, uncachedNoResult: nat, uncachedUseResult: nat)

  const NO_STATISTICS := Statistics(0, 0, 0, 0, 0, 0, 0, 0, 0, 0, 0, 0)

  /** The state all connections of one process share. */
  datatype Process = Process(table: map<Key, Entry>, heap: Heap, stats: Statistics)

  const EMPTY_PROCESS := Process(map[], EMPTY_HEAP, NO_STATISTICS)

  function Increment(references: nat): nat {
    (references + 1) % REFERENCE_LIMIT
  }

  /** Wraps from 0 to the largest unsigned int. */
  function Decrement(references: nat): nat {
    (references + REFERENCE_LIMIT - 1) % REFERENCE_LIMIT
  }

  /** Removal from the hash table runs the element destructor, which spares lent buffers. */
  function Delete(p: Process, key: Key): Process
    requires key in p.table
  {
    var entry := p.table[key];
    p.(table := p.table - {key},
       heap := if entry.references == 0 then p.heap.Free(entry.cachedQuery) else p.heap)
  }

  function IsCached(cfg: Config, now: nat, p: Process, key: Key): (Process, bool) {
    if key !in p.table then (p, false)
    else
      var entry := p.table[key];
      if entry.deadline <= now && !cfg.slamDefense then
        (if entry.references == 0 then Delete(p, key) else p, false)
      else
        (p, true)
  }

  function Find(cfg: Config, now: nat, p: Process, key: Key): (Process, Option<Address>) {
    if key !in p.table then (p, None)
    else
      var entry := p.table[key];
      if entry.deadline <= now && !cfg.slamDefense then
        (if entry.references == 0 then Delete(p, key) else p, None)
      else if cfg.slamDefense && !entry.inRefresh then
        (p.(table := p.table[key := entry.(inRefresh := true)]), None)
      else if !cfg.dataCopy then
        (p.(table := p.table[key := entry.(references := Increment(entry.references))]), Some(entry.cachedQuery))
      else
        var heap := p.heap.Touch(entry.cachedQuery);
        (p.(heap := heap.Alloc(heap.Read(entry.cachedQuery))), Some(heap.next))
  }

  function Return(cfg: Config, now: nat, p: Process, key: Key, cachedQuery: Address): Process {
    if cfg.dataCopy then p.(heap := p.heap.Free(cachedQuery))
    else if key !in p.table then p
    else
      var entry := p.table[key].(references := Decrement(p.table[key].references));
      var p' := p.(table := p.table[key := entry]);
      if entry.references == 0 && entry.deadline <= now && (!cfg.slamDefense || !entry.inRefresh) then
        Delete(p', key)
      else
        p'
  }

  /** Whether an add would find no entry in its way. */
  predicate CanAdd(cfg: Config, now: nat, p: Process, key: Key) {
    key in p.table ==>
      var entry := p.table[key];
      entry.deadline < now && entry.references == 0 && (!cfg.slamDefense || entry.inRefresh)
  }

  function AddIfNotExists(cfg: Config, now: nat, p: Process, key: Key, recordedData: Address, ttl: nat)
    : (Process, bool)
  {
    if CanAdd(cfg, now, p, key) then
      var p' := if key in p.table then Delete(p, key) else p;
      (p'.(table := p'.table[key := Entry(recordedData, now + ttl, false, 0)]), true)
    else
      (p, false)
  }

  /** The buffers a clear releases: those of all entries that are not lent. */
  function Unlent(table: map<Key, Entry>): set<Address> {
    set key | key in table && table[key].references == 0 :: table[key].cachedQuery
  }

  /** A clear that would release a dead buffer, or one buffer twice. */
  ghost predicate ClearFaults(table: map<Key, Entry>, heap: Heap) {
    || (exists key :: key in table && table[key].references == 0 && table[key].cachedQuery !in heap.live)
    || (exists key, key' :: key in table && key' in table && key != key' && table[key].references == 0 &&
          table[key'].references == 0 && table[key].cachedQuery == table[key'].cachedQuery)
  }

  /** The heap after the destructors of all elements of the table, in whatever order. */
  ghost function Destroyed(table: map<Key, Entry>, heap: Heap): Heap {
    Heap(heap.live - Unlent(table), heap.next, heap.fault || ClearFaults(table, heap))
  }

  ghost function Clear(p: Process): Process {
    p.(table := map[], heap := Destroyed(p.table, p.heap))
  }

  /** The static hash table of the handler, with the heap and the statistics of the process. */
  class QueryCache {
    const cfg: Config
    var table: map<Key, Entry>
    var heap: Heap
    var stats: Statistics

    constructor (cfg: Config)
      ensures this.cfg == cfg && View() == EMPTY_PROCESS
    {
      this.cfg := cfg;
      table := map[];
      heap := EMPTY_HEAP;
      stats := NO_STATISTICS;
    }

    ghost function View(): Process
      reads this
    {
      Process(table, heap, stats)
    }

    method DeleteEntry(key: Key)
      requires key in table
      modifies this`table, this`heap
      ensures View() == Delete(old(View()), key)
    {
      if table[key].references == 0 {
        heap := heap.Free(table[key].cachedQuery);
      }
      table := table - {key};
    }

    method QueryIsCached(key: Key, now: nat) returns (ret: bool)
      modifies this`table, this`heap
      ensures (View(), ret) == IsCached(cfg, now, old(View()), key)
    {
      ret := false;
      if key in table {
        if table[key].deadline <= now && !cfg.slamDefense {
          if table[key].references == 0 {
            DeleteEntry(key);
          }
        } else {
          ret := true;
        }
      }
    }

    method FindQueryInCache(key: Key, now: nat) returns (cachedQuery: Option<Address>)
      modifies this`table, this`heap
      ensures (View(), cachedQuery) == Find(cfg, now, old(View()), key)
    {
      cachedQuery := None;
      if key in table {
        var entry := table[key];
        if entry.deadline <= now && !cfg.slamDefense {
          if entry.references == 0 {
            DeleteEntry(key);
          }
        } else if cfg.slamDefense && !entry.inRefresh {
          table := table[key := entry.(inRefresh := true)];
        } else if !cfg.dataCopy {
          cachedQuery := Some(entry.cachedQuery);
          table := table[key := entry.(references := Increment(entry.references))];
        } else {
          heap := heap.Touch(entry.cachedQuery);
          cachedQuery := Some(heap.next);
          heap := heap.Alloc(heap.Read(entry.cachedQuery));
        }
      }
    }

    method ReturnToCache(key: Key, cachedQuery: Address, now: nat)
      modifies this`table, this`heap
      ensures View() == Return(cfg, now, old(View()), key, cachedQuery)
    {
      if !cfg.dataCopy {
        if key in table {
          table := table[key := table[key].(references := Decrement(table[key].references))];
          var entry := table[key];
          if entry.references == 0 && entry.deadline <= now && (!cfg.slamDefense || !entry.inRefresh) {
            DeleteEntry(key);
          }
        }
      } else {
        heap := heap.Free(cachedQuery);
      }
    }

    method AddQueryToCacheIfNotExists(key: Key, recordedData: Address, ttl: nat, now: nat) returns (pass: bool)
      modifies this`table, this`heap
      ensures (View(), pass) == AddIfNotExists(cfg, now, old(View()), key, recordedData, ttl)
    {
      var add := true;
      if key in table {
        var entry := table[key];
        if entry.deadline < now && entry.references == 0 && (!cfg.slamDefense || entry.inRefresh) {
          DeleteEntry(key);
        } else {
          add := false;
        }
      }
      if add {
        table := table[key := Entry(recordedData, now + ttl, false, 0)];
      }
      pass := add;
    }

    /** Destroys the elements one after the other, in no particular order. */
    method ClearCache()
      modifies this`table, this`heap
      ensures View() == Clear(old(View()))
    {
      while table.Keys != {}
        invariant Clear(View()) == Clear(old(View()))
        decreases table.Keys
      {
        var key :| key in table;
        ClearAfterDelete(View(), key);
        DeleteEntry(key);
      }
      ClearOfEmpty(View());
    }
  }

  lemma ClearOfEmpty(p: Process)
    requires p.table.Keys == {}
    ensures Clear(p) == p
  {
    assert p.table == map[];
    assert Unlent(p.table) == {};
    assert p.heap.live - {} == p.heap.live;
  }

  /** Deleting any one entry first does not change what a clear leaves behind. */
  lemma ClearAfterDelete(p: Process, key: Key)
    requires key in p.table
    ensures Clear(Delete(p, key)) == Clear(p)
  {
    var p' := Delete(p, key);
    UnlentAfterDelete(p.table, key);
    LiveAfterDelete(p.heap.live, p.table[key].cachedQuery, Unlent(p'.table));
    FaultsAfterDelete(p, key);
  }

  lemma LiveAfterDelete(live: map<Address, Bytes>, a: Address, rest: set<Address>)
    ensures (live - {a}) - rest == live - (rest + {a})
  {
  }

  lemma UnlentAfterDelete(table: map<Key, Entry>, key: Key)
    requires key in table
    ensures Unlent(table) == Unlent(table - {key}) + if table[key].references == 0 then {table[key].cachedQuery} else {}
  {
    forall a | a in Unlent(table) && !(table[key].references == 0 && a == table[key].cachedQuery)
      ensures a in Unlent(table - {key})
    {
      var k :| k in table && table[k].references == 0 && table[k].cachedQuery == a;
      assert k in table - {key};
    }
    forall a | a in Unlent(table - {key}) ensures a in Unlent(table) {
      var k :| k in table - {key} && table[k].references == 0 && table[k].cachedQuery == a;
    }
  }

  lemma FaultsAfterDelete(p: Process, key: Key)
    requires key in p.table
    ensures p.heap.fault || ClearFaults(p.table, p.heap) <==>
            Delete(p, key).heap.fault || ClearFaults(Delete(p, key).table, Delete(p, key).heap)
  {
    var p' := Delete(p, key);
    forall k | k in p'.table ensures k in p.table && k != key && p'.table[k] == p.table[k] {}
    if ClearFaults(p.table, p.heap) && !p'.heap.fault {
      if k :| k in p.table && p.table[k].references == 0 && p.table[k].cachedQuery !in p.heap.live {
        assert k in p'.table;
      } else {
        var k, k' :| k in p.table && k' in p.table && k != k' && p.table[k].references == 0 &&
          p.table[k'].references == 0 && p.table[k].cachedQuery == p.table[k'].cachedQuery;
        assert k == key ==> k' in p'.table && p'.table[k'].cachedQuery !in p'.heap.live;
        assert k' == key ==> k in p'.table && p'.table[k].cachedQuery !in p'.heap.live;
      }
    }
  }
}
