/**
 * Who may use which buffer.
 *
 * A buffer in use is owned by one connection, or it belongs to one cache entry, which lends
 * it; `references` counts the loans: the connections replaying from it, and the loans
 * that were let go without being returned. `Safe` says so, and each lemma shows that one
 * elementary change keeps it; the calls of a connection are compositions of these.
 */
module LoanScene {
  import opened Wrappers
  import opened SmartStrHeap
  import opened StdHandler
  import opened Connection
  import opened Run

  datatype Scene = Scene(
    cfg: Config, table: map<Key, Entry>, heap: Heap, conns: map<ConnId, Conn>, abandoned: multiset<Address>)

  /** Replays from a buffer of the cache. */
  predicate Borrows(cfg: Config, c: Conn) {
    c.hook == Replay && !cfg.dataCopy
  }

  /** Records into a buffer of its own, or replays from its own copy. */
  predicate Owns(cfg: Config, c: Conn) {
    c.hook == Record || (c.hook == Replay && cfg.dataCopy)
  }

  ghost function Borrowers(cfg: Config, conns: map<ConnId, Conn>, a: Address): set<ConnId> {
    set id | id in conns && Borrows(cfg, conns[id]) && conns[id].recordedData == Some(a)
  }

  ghost function Loans(cfg: Config, conns: map<ConnId, Conn>, abandoned: multiset<Address>, a: Address): nat {
    |Borrowers(cfg, conns, a)| + abandoned[a]
  }

  ghost predicate NotCached(table: map<Key, Entry>, a: Address) {
    forall key :: key in table ==> table[key].cachedQuery != a
  }

  ghost predicate NotHeld(conns: map<ConnId, Conn>, a: Address) {
    forall id :: id in conns ==> conns[id].recordedData != Some(a)
  }

  /** Live, and neither cached, nor lent, nor held by a connection. */
  ghost predicate Orphan(s: Scene, a: Address) {
    a in s.heap.live && a !in s.abandoned && NotCached(s.table, a) && NotHeld(s.conns, a)
  }

  ghost predicate HeapSafe(heap: Heap, abandoned: multiset<Address>) {
    && !heap.fault
    && (forall a :: a in heap.live ==> a < heap.next)
    && (forall a :: a in abandoned ==> a < heap.next)
  }

  /** Each entry has a live buffer of its own. */
  ghost predicate TableSafe(table: map<Key, Entry>, heap: Heap) {
    && (forall key :: key in table ==> table[key].cachedQuery in heap.live)
    && (forall key, key' :: key in table && key' in table && key != key' ==>
          table[key].cachedQuery != table[key'].cachedQuery)
  }

  /** A plugin hook comes with a buffer and a key; the original hook comes without a buffer. */
  predicate Armed(c: Conn) {
    if c.hook == Original then c.recordedData.None? else c.recordedData.Some? && c.hashKey.Some?
  }

  /** An owned buffer is nobody else's; the key of a borrower leads to the very entry that lent the buffer. */
  ghost predicate ConnSafe(s: Scene, c: Conn) {
    && Armed(c)
    && (Owns(s.cfg, c) ==>
          var a := c.recordedData.value;
          a in s.heap.live && a !in s.abandoned && NotCached(s.table, a))
    && (Borrows(s.cfg, c) ==>
          c.hashKey.value in s.table && s.table[c.hashKey.value].cachedQuery == c.recordedData.value)
  }

  ghost predicate ConnsSafe(s: Scene) {
    forall id :: id in s.conns ==> ConnSafe(s, s.conns[id])
  }

  ghost predicate Apart(cfg: Config, conns: map<ConnId, Conn>) {
    forall id, other :: id in conns && other in conns && id != other && Owns(cfg, conns[id]) ==>
      conns[other].recordedData != conns[id].recordedData
  }

  ghost predicate CountSafe(s: Scene, entry: Entry) {
    entry.references < REFERENCE_LIMIT && entry.references == Loans(s.cfg, s.conns, s.abandoned, entry.cachedQuery)
  }

  ghost predicate CountsSafe(s: Scene) {
    forall key :: key in s.table ==> CountSafe(s, s.table[key])
  }

  ghost predicate Safe(s: Scene) {
    && HeapSafe(s.heap, s.abandoned) && TableSafe(s.table, s.heap)
    && ConnsSafe(s) && Apart(s.cfg, s.conns) && CountsSafe(s)
  }

  // ---- borrowers of one buffer, when one connection changes ----

  predicate BorrowsFrom(cfg: Config, c: Conn, a: Address) {
    Borrows(cfg, c) && c.recordedData == Some(a)
  }

  lemma CountAfterUpdate(cfg: Config, conns: map<ConnId, Conn>, id: ConnId, c: Conn, a: Address)
    requires id in conns
    ensures |Borrowers(cfg, conns[id := c], a)| ==
            |Borrowers(cfg, conns, a)| - (if BorrowsFrom(cfg, conns[id], a) then 1 else 0)
            + (if BorrowsFrom(cfg, c, a) then 1 else 0)
  {
    var others := Borrowers(cfg, conns, a) - {id};
    if BorrowsFrom(cfg, conns[id], a) {
      assert Borrowers(cfg, conns, a) == others + {id};
    } else {
      assert Borrowers(cfg, conns, a) == others;
    }
    if BorrowsFrom(cfg, c, a) {
      assert Borrowers(cfg, conns[id := c], a) == others + {id};
    } else {
      assert Borrowers(cfg, conns[id := c], a) == others;
    }
  }

  /** Loans of every buffer are unchanged, but for the one the connection borrowed or borrows. */
  lemma LoansAfterUpdate(s: Scene, id: ConnId, c: Conn)
    requires id in s.conns
    ensures forall a ::
              Loans(s.cfg, s.conns[id := c], s.abandoned, a) ==
              Loans(s.cfg, s.conns, s.abandoned, a) - (if BorrowsFrom(s.cfg, s.conns[id], a) then 1 else 0)
              + (if BorrowsFrom(s.cfg, c, a) then 1 else 0)
  {
    forall a: Address {
      CountAfterUpdate(s.cfg, s.conns, id, c, a);
    }
  }

  lemma BorrowersWithout(cfg: Config, conns: map<ConnId, Conn>, id: ConnId, a: Address)
    requires id in conns ==> conns[id].hook == Original
    ensures Borrowers(cfg, conns - {id}, a) == Borrowers(cfg, conns, a)
  {
  }

  lemma NoLoans(s: Scene, a: Address)
    requires a !in s.abandoned && NotHeld(s.conns, a)
    ensures Loans(s.cfg, s.conns, s.abandoned, a) == 0
  {
    assert Borrowers(s.cfg, s.conns, a) == {};
  }

  // ---- changes of the table ----

  /** An entry and the abandoned loans of its buffer change together. */
  lemma RebookKeepsSafe(s: Scene, key: Key, entry: Entry, abandoned: multiset<Address>)
    requires Safe(s) && key in s.table && entry.cachedQuery == s.table[key].cachedQuery
    requires forall a :: a != entry.cachedQuery ==> abandoned[a] == s.abandoned[a]
    requires entry.references < REFERENCE_LIMIT
    requires entry.references + s.abandoned[entry.cachedQuery] == s.table[key].references + abandoned[entry.cachedQuery]
    ensures Safe(s.(table := s.table[key := entry], abandoned := abandoned))
  {
    var s' := s.(table := s.table[key := entry], abandoned := abandoned);
    forall a | a in abandoned ensures a < s.heap.next {
      assert a in s.abandoned || a == entry.cachedQuery;
    }
    RebookedConnsSafe(s, s', key);
    assert CountsSafe(s') by {
      forall k | k in s'.table ensures CountSafe(s', s'.table[k]) {
        assert CountSafe(s, s.table[k]);
      }
    }
  }

  lemma RebookedConnsSafe(s: Scene, s': Scene, key: Key)
    requires ConnsSafe(s) && key in s.table && s'.cfg == s.cfg && s'.heap == s.heap && s'.conns == s.conns
    requires s'.table.Keys == s.table.Keys
    requires forall k :: k in s.table ==> s'.table[k].cachedQuery == s.table[k].cachedQuery
    requires forall a :: a in s'.abandoned ==> a in s.abandoned || a == s.table[key].cachedQuery
    ensures ConnsSafe(s')
  {
    forall id | id in s.conns ensures ConnSafe(s', s.conns[id]) {
      assert ConnSafe(s, s.conns[id]);
    }
  }

  function Lend(s: Scene, key: Key): Scene
    requires key in s.table
  {
    var entry := s.table[key];
    s.(table := s.table[key := entry.(references := Increment(entry.references))],
       abandoned := s.abandoned + multiset{entry.cachedQuery})
  }

  lemma LendKeepsSafe(s: Scene, key: Key)
    requires Safe(s) && key in s.table && s.table[key].references + 1 < REFERENCE_LIMIT
    ensures Safe(Lend(s, key))
  {
    var s' := Lend(s, key);
    RebookKeepsSafe(s, key, s'.table[key], s'.abandoned);
  }

  function Settle(s: Scene, key: Key): Scene
    requires key in s.table
  {
    var entry := s.table[key];
    s.(table := s.table[key := entry.(references := Decrement(entry.references))],
       abandoned := s.abandoned - multiset{entry.cachedQuery})
  }

  lemma SettleKeepsSafe(s: Scene, key: Key)
    requires Safe(s) && key in s.table && s.table[key].cachedQuery in s.abandoned
    ensures Safe(Settle(s, key))
  {
    var s' := Settle(s, key);
    assert CountSafe(s, s.table[key]);
    RebookKeepsSafe(s, key, s'.table[key], s'.abandoned);
  }

  lemma MarkKeepsSafe(s: Scene, key: Key, entry: Entry)
    requires Safe(s) && key in s.table
    requires entry.cachedQuery == s.table[key].cachedQuery && entry.references == s.table[key].references
    ensures Safe(s.(table := s.table[key := entry]))
  {
    assert CountSafe(s, s.table[key]);
    RebookKeepsSafe(s, key, entry, s.abandoned);
  }

  function Evict(s: Scene, key: Key): Scene
    requires key in s.table
  {
    s.(table := s.table - {key}, heap := s.heap.Free(s.table[key].cachedQuery))
  }

  lemma EvictKeepsSafe(s: Scene, key: Key)
    requires Safe(s) && key in s.table && s.table[key].references == 0
    ensures Safe(Evict(s, key))
  {
    var a := s.table[key].cachedQuery;
    var s' := Evict(s, key);
    assert CountSafe(s, s.table[key]);
    assert Borrowers(s.cfg, s.conns, a) == {};
    assert ConnsSafe(s') by {
      forall id | id in s.conns ensures ConnSafe(s', s.conns[id]) {
        assert ConnSafe(s, s.conns[id]);
        assert id !in Borrowers(s.cfg, s.conns, a);
      }
    }
    assert CountsSafe(s') by {
      forall k | k in s'.table ensures CountSafe(s', s'.table[k]) {
        assert CountSafe(s, s.table[k]);
      }
    }
  }

  function Insert(s: Scene, key: Key, entry: Entry): Scene {
    s.(table := s.table[key := entry])
  }

  lemma InsertKeepsSafe(s: Scene, key: Key, entry: Entry)
    requires Safe(s) && key !in s.table && Orphan(s, entry.cachedQuery) && entry.references == 0
    ensures Safe(Insert(s, key, entry))
  {
    var s' := Insert(s, key, entry);
    NoLoans(s, entry.cachedQuery);
    assert ConnsSafe(s') by {
      forall id | id in s.conns ensures ConnSafe(s', s.conns[id]) {
        assert ConnSafe(s, s.conns[id]);
      }
    }
    assert CountsSafe(s') by {
      forall k | k in s'.table ensures CountSafe(s', s'.table[k]) {
        assert k != key ==> CountSafe(s, s.table[k]);
      }
    }
  }

  // ---- changes of the heap ----

  /** A heap with the same live buffers among those in use is as good. */
  lemma ReheapKeepsSafe(s: Scene, heap: Heap)
    requires Safe(s) && !heap.fault && heap.next >= s.heap.next
    requires forall a :: a in heap.live ==> a < heap.next
    requires forall a :: a in s.heap.live && a !in heap.live ==> Orphan(s, a)
    ensures Safe(s.(heap := heap))
  {
    var s' := s.(heap := heap);
    assert ConnsSafe(s') by {
      forall id | id in s.conns ensures ConnSafe(s', s.conns[id]) {
        assert ConnSafe(s, s.conns[id]);
      }
    }
    assert CountsSafe(s') by {
      forall k | k in s'.table ensures CountSafe(s', s'.table[k]) {
        assert CountSafe(s, s.table[k]);
      }
    }
  }

  lemma AllocKeepsSafe(s: Scene, content: Bytes)
    requires Safe(s)
    ensures Safe(s.(heap := s.heap.Alloc(content)))
    ensures Orphan(s.(heap := s.heap.Alloc(content)), s.heap.next)
  {
    ReheapKeepsSafe(s, s.heap.Alloc(content));
    assert s.heap.next !in s.heap.live;
    forall id | id in s.conns ensures s.conns[id].recordedData != Some(s.heap.next) {
      assert ConnSafe(s, s.conns[id]);
    }
  }

  lemma WriteKeepsSafe(s: Scene, a: Address, content: Bytes)
    requires Safe(s) && a in s.heap.live
    ensures Safe(s.(heap := s.heap.Write(a, content)))
  {
    ReheapKeepsSafe(s, s.heap.Write(a, content));
  }

  lemma FreeKeepsSafe(s: Scene, a: Address)
    requires Safe(s) && Orphan(s, a)
    ensures Safe(s.(heap := s.heap.Free(a)))
  {
    ReheapKeepsSafe(s, s.heap.Free(a));
  }

  // ---- changes of one connection ----

  /** One connection and the abandoned loans change together. */
  lemma SwitchKeepsSafe(s: Scene, id: ConnId, c: Conn, abandoned: multiset<Address>)
    requires Safe(s) && id in s.conns
    requires forall a :: a in abandoned ==> a in s.abandoned || !NotCached(s.table, a)
    requires ConnSafe(s.(abandoned := abandoned), c)
    requires Owns(s.cfg, c) ==>
               forall other :: other in s.conns && other != id ==> s.conns[other].recordedData != c.recordedData
    requires forall other :: other in s.conns && other != id && Owns(s.cfg, s.conns[other]) ==>
               s.conns[other].recordedData != c.recordedData
    requires forall a :: !NotCached(s.table, a) ==>
               abandoned[a] + (if BorrowsFrom(s.cfg, c, a) then 1 else 0) ==
               s.abandoned[a] + (if BorrowsFrom(s.cfg, s.conns[id], a) then 1 else 0)
    ensures Safe(s.(conns := s.conns[id := c], abandoned := abandoned))
  {
    var s' := s.(conns := s.conns[id := c], abandoned := abandoned);
    LoansAfterUpdate(s, id, c);
    assert HeapSafe(s'.heap, abandoned) by {
      forall a | a in abandoned ensures a < s.heap.next {
        if a !in s.abandoned {
          var key :| key in s.table && s.table[key].cachedQuery == a;
        }
      }
    }
    assert ConnsSafe(s') by {
      forall other | other in s'.conns ensures ConnSafe(s', s'.conns[other]) {
        if other != id {
          assert ConnSafe(s, s.conns[other]);
        }
      }
    }
    assert CountsSafe(s') by {
      forall k | k in s'.table ensures CountSafe(s', s'.table[k]) {
        assert CountSafe(s, s.table[k]);
        assert !NotCached(s.table, s.table[k].cachedQuery);
      }
    }
  }

  /** The connection goes back to the original hook; a loan it had is abandoned, an own buffer is on its own. */
  function Drop(s: Scene, id: ConnId, c: Conn): Scene
    requires id in s.conns
  {
    s.(conns := s.conns[id := c], abandoned := s.abandoned + Dropped(s.cfg, s.conns[id]))
  }

  lemma DropKeepsSafe(s: Scene, id: ConnId, c: Conn)
    requires Safe(s) && id in s.conns && c.hook == Original && c.recordedData == None
    ensures Safe(Drop(s, id, c))
    ensures Owns(s.cfg, s.conns[id]) ==> Orphan(Drop(s, id, c), s.conns[id].recordedData.value)
  {
    assert ConnSafe(s, s.conns[id]);
    SwitchKeepsSafe(s, id, c, s.abandoned + Dropped(s.cfg, s.conns[id]));
  }

  lemma OwnKeepsSafe(s: Scene, id: ConnId, c: Conn)
    requires Safe(s) && id in s.conns && s.conns[id].hook == Original
    requires Owns(s.cfg, c) && Armed(c) && Orphan(s, c.recordedData.value)
    ensures Safe(s.(conns := s.conns[id := c]))
  {
    SwitchKeepsSafe(s, id, c, s.abandoned);
    assert s.(conns := s.conns[id := c], abandoned := s.abandoned) == s.(conns := s.conns[id := c]);
  }

  function Adopt(s: Scene, id: ConnId, c: Conn, a: Address): Scene {
    s.(conns := s.conns[id := c], abandoned := s.abandoned - multiset{a})
  }

  lemma AdoptKeepsSafe(s: Scene, id: ConnId, c: Conn, a: Address)
    requires Safe(s) && id in s.conns && s.conns[id].hook == Original && a in s.abandoned
    requires Armed(c) && BorrowsFrom(s.cfg, c, a)
    requires c.hashKey.value in s.table && s.table[c.hashKey.value].cachedQuery == a
    ensures Safe(Adopt(s, id, c, a))
  {
    assert ConnSafe(s, s.conns[id]);
    forall other | other in s.conns && Owns(s.cfg, s.conns[other]) ensures s.conns[other].recordedData != Some(a) {
      assert ConnSafe(s, s.conns[other]);
    }
    SwitchKeepsSafe(s, id, c, s.abandoned - multiset{a});
  }

  /** Fields other than the hook, the buffer and the key do not matter. */
  lemma RetouchKeepsSafe(s: Scene, id: ConnId, c: Conn)
    requires Safe(s) && id in s.conns
    requires c.hook == s.conns[id].hook && c.recordedData == s.conns[id].recordedData
    requires c.hook != Original ==> c.hashKey == s.conns[id].hashKey
    ensures Safe(s.(conns := s.conns[id := c]))
  {
    assert ConnSafe(s, s.conns[id]);
    SwitchKeepsSafe(s, id, c, s.abandoned);
    assert s.(conns := s.conns[id := c], abandoned := s.abandoned) == s.(conns := s.conns[id := c]);
  }

  lemma RemoveKeepsSafe(s: Scene, id: ConnId)
    requires Safe(s) && id in s.conns && s.conns[id].hook == Original
    ensures Safe(s.(conns := s.conns - {id}))
  {
    var s' := s.(conns := s.conns - {id});
    assert ConnsSafe(s') by {
      forall other | other in s'.conns ensures ConnSafe(s', s'.conns[other]) {
        assert ConnSafe(s, s.conns[other]);
      }
    }
    assert CountsSafe(s') by {
      forall key | key in s.table ensures CountSafe(s', s.table[key]) {
        assert CountSafe(s, s.table[key]);
        BorrowersWithout(s.cfg, s.conns, id, s.table[key].cachedQuery);
      }
    }
  }

  lemma ConnectKeepsSafe(s: Scene, id: ConnId)
    requires Safe(s) && id !in s.conns
    ensures Safe(s.(conns := s.conns[id := NEW_CONN]))
  {
    var s' := s.(conns := s.conns[id := NEW_CONN]);
    assert s'.conns - {id} == s.conns;
    assert ConnsSafe(s') by {
      forall other | other in s'.conns ensures ConnSafe(s', s'.conns[other]) {
        assert other != id ==> ConnSafe(s, s.conns[other]);
      }
    }
    assert CountsSafe(s') by {
      forall key | key in s.table ensures CountSafe(s', s.table[key]) {
        assert CountSafe(s, s.table[key]);
        BorrowersWithout(s.cfg, s'.conns, id, s.table[key].cachedQuery);
      }
    }
  }
}
