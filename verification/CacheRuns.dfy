/** What the invariants say about whole runs: the main theorems on the cache. */
module CacheRuns {
  import opened Wrappers
  import opened SmartStrHeap
  import opened StdHandler
  import opened Connection
  import opened Run
  import opened LoanScene
  import opened LoanSafety
  import opened LoanRuns
  import opened HookSafety
  import opened CacheLog
  import opened Recordings
  import opened Refinement
  import opened StaleReplay
  import opened Transparency

  ghost predicate Invariant(w: World) {
    SafeWorld(w) && HooksSound(w) && RecordingsExact(w) && TableMatches(w) && Transparent(w)
  }

  ghost predicate GoodRun(w: World, events: seq<Event>) {
    PermittedRun(w, events) && ForwardRun(w, events)
  }

  lemma {:induction false} GoodRunKeepsInvariant(cfg: Config, now: nat, events: seq<Event>)
    requires GoodRun(Start(cfg, now), events)
    ensures Invariant(After(Start(cfg, now), events))
    decreases |events|
  {
    if events == [] {
      StartIsSafe(cfg, now);
    } else {
      var last := |events| - 1;
      GoodRunKeepsInvariant(cfg, now, events[..last]);
      StepKeepsInvariant(After(Start(cfg, now), events[..last]), events[last]);
    }
  }

  lemma StepKeepsInvariant(w: World, e: Event)
    requires Invariant(w) && Permitted(w, e) && Forward(w, e)
    ensures Invariant(Step(w, e))
  {
    SoundReadsInBounds(w);
    SafeIffPermitted(w, e);
    StepIsSound(w, e);
    StepKeepsRecordings(w, e);
    StepKeepsMatches(w, e);
    StepKeepsTransparent(w, e);
  }

  /**
   * Eviction is unobservable: after any good run, a lookup of any key gives what the log of adds
   * and clears gives, and query_is_cached agrees with it.
   */
  lemma LookupsFollowTheLog(cfg: Config, now: nat, events: seq<Event>, key: Key)
    requires GoodRun(Start(cfg, now), events)
    ensures
      var w := After(Start(cfg, now), events);
      && FoundBytes(w, key) == Predicted(cfg, w.history.log, w.now, key)
      && (IsCached(cfg, w.now, w.process, key).1 <==>
            if cfg.slamDefense then Latest(w.history.log, key).Some? else FoundBytes(w, key).Some?)
  {
    GoodRunKeepsInvariant(cfg, now, events);
    RunKeepsConfig(Start(cfg, now), events);
    MatchingFindAsPredicted(After(Start(cfg, now), events), key);
  }

  /**
   * Transparency: the bytes given to a connection in replay mode since its hit are a prefix of
   * the full answer some server sent to some connection to a query with the key of the hit, and
   * without slam defence the hit came before the time of the add plus the TTL. That key is the one of
   * the connection's latest query, unless that query went past the cache.
   */
  lemma ReplayIsTransparent(cfg: Config, now: nat, events: seq<Event>, id: ConnId)
    requires GoodRun(Start(cfg, now), events)
    requires id in After(Start(cfg, now), events).conns && After(Start(cfg, now), events).conns[id].hook == Replay
    ensures
      var w := After(Start(cfg, now), events);
      var h := w.history;
      && id in h.grants && id in h.replayed
      && exists j: nat :: j < |h.log| && h.log[j].Added? &&
           var item, grant := h.log[j], h.grants[id];
           && w.conns[id].hashKey == Some(item.key)
           && id in h.asked && (h.asked[id] == Some(item.key) || h.asked[id] == None)
           && item.wireLength <= |h.wire|
           && QueryKey(h.wire[..item.wireLength], item.id) == Some(item.key)
           && h.replayed[id] <= Answer(h.wire[..item.wireLength], item.id)
           && item.addedAt <= grant.time <= w.now
           && (!cfg.slamDefense ==> grant.time < item.addedAt + item.ttl)
  {
    GoodRunKeepsInvariant(cfg, now, events);
    RunKeepsConfig(Start(cfg, now), events);
    var w := After(Start(cfg, now), events);
    ReplaysAreAlwaysTraced(cfg, now, events);
    assert ReplayTraced(w, id);
    assert ReplayerMatches(w, w.conns[id], w.history, id);
    var grant := w.history.grants[id];
    var j := Source(w.history.log, grant).value;
    assert w.history.log[..grant.logLength][j] == w.history.log[j];
    assert Genuine(w.history.wire, w.history.log[j]);
  }

  // ---- slam defence ----

  /** AskedSince, spelled out. */
  lemma {:induction false} AskedSinceIff(log: seq<LogItem>, key: Key)
    ensures AskedSince(log, key) <==>
            Latest(log, key).Some? && exists i :: Latest(log, key).value < i < |log| && log[i] == Asked(key)
    decreases |log|
  {
    if log != [] {
      var last := |log| - 1;
      AskedSinceIff(log[..last], key);
      forall i | 0 <= i < last ensures log[..last][i] == log[i] {}
    }
  }

  /**
   * With slam defence the first lookup after each add is sent away to refresh, and every later
   * one, however late, gets the data of that add, until the next add or clear.
   */
  lemma SlamDefenceAdmitsOneRefresher(cfg: Config, now: nat, events: seq<Event>, key: Key)
    requires GoodRun(Start(cfg, now), events) && cfg.slamDefense
    ensures
      var w := After(Start(cfg, now), events);
      var log := w.history.log;
      match Latest(log, key)
      case None => FoundBytes(w, key) == None
      case Some(j) =>
        FoundBytes(w, key) == if exists i :: j < i < |log| && log[i] == Asked(key) then Some(log[j].bytes) else None
  {
    LookupsFollowTheLog(cfg, now, events, key);
    AskedSinceIff(After(Start(cfg, now), events).history.log, key);
  }

  /** Under slam defence only entries in refresh are lent, so returning a buffer never evicts. */
  lemma SlamReturnNeverEvicts(cfg: Config, now: nat, events: seq<Event>, key: Key, a: Address)
    requires GoodRun(Start(cfg, now), events) && cfg.slamDefense
    requires key in After(Start(cfg, now), events).process.table
    requires After(Start(cfg, now), events).process.table[key].references > 0
    ensures
      var w := After(Start(cfg, now), events);
      && w.process.table[key].inRefresh
      && Return(cfg, w.now, w.process, key, a).table.Keys == w.process.table.Keys
  {
    GoodRunKeepsInvariant(cfg, now, events);
    RunKeepsConfig(Start(cfg, now), events);
    var w := After(Start(cfg, now), events);
    assert KeyMatches(w.cfg, w.now, w.process, w.history.log, key);
  }

  // ---- reap_query meets a result set while replaying ----

  /**
   * A driver that judges by the bytes: `verdict` says of an answer whether reap_query finds a
   * result set at its head. It is asked of a replay, and only what passed it is ever stored.
   */
  ghost predicate Faithful(verdict: Bytes -> bool, w: World, e: Event) {
    e.On? && e.id in w.conns ==>
      var c := w.conns[e.id];
      && (e.call.Reap? && c.hook == Replay ==> e.call.resultSet == verdict(Recorded(w.process.heap, c)))
      && (e.call.Store? && e.call.result.Some? && c.hook == Record ==> verdict(Recorded(w.process.heap, c)))
  }

  ghost predicate Stored(verdict: Bytes -> bool, log: seq<LogItem>) {
    forall j :: 0 <= j < |log| && log[j].Added? ==> verdict(log[j].bytes)
  }

  ghost predicate FaithfulRun(verdict: Bytes -> bool, w: World, events: seq<Event>)
    decreases |events|
  {
    events == [] ||
    var last := |events| - 1;
    FaithfulRun(verdict, w, events[..last]) && Faithful(verdict, After(w, events[..last]), events[last])
  }

  /** Everything Permitted asks for, but for what it asks of reap_query. */
  predicate PermittedCaller(w: World, e: Event) {
    (e.On? && e.call.Reap?) || Permitted(w, e)
  }

  ghost predicate PermittedCallerRun(w: World, events: seq<Event>)
    decreases |events|
  {
    events == [] ||
    var last := |events| - 1;
    PermittedCallerRun(w, events[..last]) && PermittedCaller(After(w, events[..last]), events[last])
  }

  lemma FaithfulIsPermitted(verdict: Bytes -> bool, w: World, e: Event)
    requires Invariant(w) && Stored(verdict, w.history.log) && Faithful(verdict, w, e) && PermittedCaller(w, e)
    ensures Permitted(w, e) && Stored(verdict, Observe(w, e).log)
  {
    if e.On? && e.id in w.conns {
      var c := w.conns[e.id];
      assert ReplayerMatches(w, c, w.history, e.id);
      StaysStored(verdict, w, e);
    }
  }

  lemma StaysStored(verdict: Bytes -> bool, w: World, e: Event)
    requires Stored(verdict, w.history.log) && Faithful(verdict, w, e)
    ensures Stored(verdict, Observe(w, e).log)
  {
    LogGrows(w, e);
    StoredGrows(verdict, w.history.log, Observe(w, e).log);
  }

  lemma StoredGrows(verdict: Bytes -> bool, log: seq<LogItem>, log': seq<LogItem>)
    requires Stored(verdict, log) && log <= log' && |log'| <= |log| + 1
    requires |log'| > |log| && log'[|log|].Added? ==> verdict(log'[|log|].bytes)
    ensures Stored(verdict, log')
  {
    forall j | 0 <= j < |log| ensures log'[j] == log[j] {}
  }

  /** An event adds at most one item to the log, and what it says was added is what was recorded. */
  lemma LogGrows(w: World, e: Event)
    ensures
      var log, log' := w.history.log, Observe(w, e).log;
      && log <= log' && |log'| <= |log| + 1
      && (|log'| > |log| && log'[|log|].Added? ==>
            && e.On? && e.id in w.conns && e.call.Store? && e.call.result.Some? && w.conns[e.id].hook == Record
            && log'[|log|].bytes == Recorded(w.process.heap, w.conns[e.id]))
  {
  }

  /** So with a faithful driver nothing need be assumed of reap_query. */
  lemma {:induction false} FaithfulRunIsPermitted(
    verdict: Bytes -> bool, cfg: Config, now: nat, events: seq<Event>)
    requires FaithfulRun(verdict, Start(cfg, now), events)
    requires PermittedCallerRun(Start(cfg, now), events) && ForwardRun(Start(cfg, now), events)
    ensures PermittedRun(Start(cfg, now), events) && Stored(verdict, After(Start(cfg, now), events).history.log)
    decreases |events|
  {
    if events != [] {
      var last, w := |events| - 1, Start(cfg, now);
      FaithfulRunIsPermitted(verdict, cfg, now, events[..last]);
      GoodRunKeepsInvariant(cfg, now, events[..last]);
      FaithfulIsPermitted(verdict, After(w, events[..last]), events[last]);
    }
  }

  // ---- when a key can be cached again ----

  /** The connections that replay the entry's buffer, and the loans of it that nobody will return. */
  ghost function LoansOf(w: World, entry: Entry): nat {
    Loans(w.cfg, w.conns, w.history.abandoned, entry.cachedQuery)
  }

  lemma CanAddIffUnlent(w: World, key: Key)
    requires SafeWorld(w) && key in w.process.table
    ensures
      var entry := w.process.table[key];
      CanAdd(w.cfg, w.now, w.process, key) <==>
      entry.deadline < w.now && LoansOf(w, entry) == 0 && (w.cfg.slamDefense ==> entry.inRefresh)
  {
    assert CountSafe(SceneOf(w), w.process.table[key]);
  }

  /**
   * After any good run, a key that has an entry can be cached again if and only if its last add is past
   * its deadline, nobody has the entry's buffer on loan, and under slam defence someone was sent to refresh it.
   */
  lemma KeyIsFreeIff(cfg: Config, now: nat, events: seq<Event>, key: Key)
    requires GoodRun(Start(cfg, now), events)
    requires key in After(Start(cfg, now), events).process.table
    ensures
      var w := After(Start(cfg, now), events);
      var log := w.history.log;
      && Latest(log, key).Some?
      && (CanAdd(cfg, w.now, w.process, key) <==>
            && Deadline(log[Latest(log, key).value]) < w.now
            && LoansOf(w, w.process.table[key]) == 0
            && (cfg.slamDefense ==> AskedSince(log, key)))
  {
    GoodRunKeepsInvariant(cfg, now, events);
    RunKeepsConfig(Start(cfg, now), events);
    var w := After(Start(cfg, now), events);
    assert KeyMatches(w.cfg, w.now, w.process, w.history.log, key);
    CanAddIffUnlent(w, key);
  }

  /** What the table says of a key after a good run. */
  lemma EntryOfKey(cfg: Config, now: nat, events: seq<Event>, key: Key)
    requires GoodRun(Start(cfg, now), events)
    requires key in After(Start(cfg, now), events).process.table
    ensures
      var w := After(Start(cfg, now), events);
      var log, entry := w.history.log, w.process.table[key];
      && w.cfg == cfg && Latest(log, key).Some? && entry.deadline == Deadline(log[Latest(log, key).value])
      && entry.references == LoansOf(w, entry) && entry.references < REFERENCE_LIMIT
  {
    GoodRunKeepsInvariant(cfg, now, events);
    RunKeepsConfig(Start(cfg, now), events);
    var w := After(Start(cfg, now), events);
    assert KeyMatches(w.cfg, w.now, w.process, w.history.log, key);
    assert CountSafe(SceneOf(w), w.process.table[key]);
  }

  /**
   * Without slam defence, once the time of the last add is up, a lookup, query_is_cached, and the return of
   * a lent buffer each free the key to be cached at once, if and only if nobody else has the buffer on loan.
   */
  lemma LateCallsFreeKey(cfg: Config, now: nat, events: seq<Event>, key: Key, a: Address)
    requires GoodRun(Start(cfg, now), events) && !cfg.slamDefense
    requires key in After(Start(cfg, now), events).process.table
    requires
      var w := After(Start(cfg, now), events);
      Latest(w.history.log, key).Some? ==> Deadline(w.history.log[Latest(w.history.log, key).value]) <= w.now
    ensures
      var w := After(Start(cfg, now), events);
      var p, loans := w.process, LoansOf(w, w.process.table[key]);
      && (CanAdd(cfg, w.now, Find(cfg, w.now, p, key).0, key) <==> loans == 0)
      && (CanAdd(cfg, w.now, IsCached(cfg, w.now, p, key).0, key) <==> loans == 0)
      && (!cfg.dataCopy && loans > 0 ==> (CanAdd(cfg, w.now, Return(cfg, w.now, p, key, a), key) <==> loans == 1))
  {
    EntryOfKey(cfg, now, events, key);
    var w := After(Start(cfg, now), events);
    LateEntryGoes(cfg, w.now, w.process, key, a);
  }

  lemma LateEntryGoes(cfg: Config, now: nat, p: Process, key: Key, a: Address)
    requires !cfg.slamDefense && key in p.table && p.table[key].deadline <= now
    requires p.table[key].references < REFERENCE_LIMIT
    ensures
      var references := p.table[key].references;
      && (CanAdd(cfg, now, Find(cfg, now, p, key).0, key) <==> references == 0)
      && (CanAdd(cfg, now, IsCached(cfg, now, p, key).0, key) <==> references == 0)
      && (!cfg.dataCopy && references > 0 ==>
            (CanAdd(cfg, now, Return(cfg, now, p, key, a), key) <==> references == 1))
  {
  }

  // ---- the cost of an abandoned loan ----

  /** The entry of the key lent its buffer to someone who will never return it. */
  predicate Pinned(w: World, key: Key, entry: Entry) {
    && key in w.process.table && entry.cachedQuery in w.history.abandoned
    && w.process.table[key].cachedQuery == entry.cachedQuery && w.process.table[key].deadline == entry.deadline
  }

  lemma FindKeepsLent(cfg: Config, now: nat, p: Process, key: Key, k: Key)
    requires k in p.table && p.table[k].references > 0
    ensures
      var p' := Find(cfg, now, p, key).0;
      k in p'.table && p'.table[k].cachedQuery == p.table[k].cachedQuery && p'.table[k].deadline == p.table[k].deadline
  {
  }

  lemma ReturnKeepsTwiceLent(cfg: Config, now: nat, p: Process, key: Key, a: Address, k: Key)
    requires k in p.table && 0 < p.table[k].references < REFERENCE_LIMIT
    requires k == key ==> p.table[k].references > 1
    ensures
      var p' := Return(cfg, now, p, key, a);
      k in p'.table && p'.table[k].cachedQuery == p.table[k].cachedQuery && p'.table[k].deadline == p.table[k].deadline
  {
  }

  lemma StepKeepsPinned(w: World, e: Event, key: Key, entry: Entry)
    requires SafeWorld(w) && Pinned(w, key, entry) && !w.cfg.dataCopy && e != ClearCache
    ensures Pinned(Step(w, e), key, entry)
  {
    assert CountSafe(SceneOf(w), w.process.table[key]);
    if e.On? && e.id in w.conns {
      assert ConnSafe(SceneOf(w), w.conns[e.id]);
      CallKeepsPinned(w, Step(w, e), e.id, e.call, key, entry);
    }
  }

  lemma CallKeepsPinned(w: World, w': World, id: ConnId, call: Call, key: Key, entry: Entry)
    requires id in w.conns && ConnSafe(SceneOf(w), w.conns[id])
    requires Pinned(w, key, entry) && CountSafe(SceneOf(w), w.process.table[key])
    requires !w.cfg.dataCopy && w' == Step(w, On(id, call))
    ensures Pinned(w', key, entry)
  {
    var c := w.conns[id];
    if call.Send? && CachePath(call.request) {
      SendDoesLeave(w, id, call.request, call.pass);
      FindKeepsLent(w.cfg, w.now, w.process, call.request.hashKey.value, key);
    } else if call.Store? && call.result.Some? && c.activeWithCache && c.hook == Replay {
      StoreReplayedLeaves(w, id, call.ini, call.result);
      assert c.hashKey == Some(key) ==> id in Borrowers(w.cfg, w.conns, entry.cachedQuery);
      ReturnKeepsTwiceLent(w.cfg, w.now, w.process, c.hashKey.value, c.recordedData.value, key);
    } else if call.Store? {
      StoreOthersKeepsPinned(w, w', id, call.ini, call.result, key, entry);
    }
  }

  lemma StoreOthersKeepsPinned(
    w: World, w': World, id: ConnId, ini: Ini, result: Option<ResultSet>, key: Key, entry: Entry)
    requires id in w.conns && Pinned(w, key, entry) && w.process.table[key].references > 0
    requires w' == Step(w, On(id, Store(ini, result)))
    requires result.Some? && w.conns[id].activeWithCache ==> w.conns[id].hook != Replay
    ensures Pinned(w', key, entry)
  {
  }

  /**
   * Once a loan is abandoned, by use_result or by closing the connection, the entry stays until
   * the cache is cleared, and without slam defence its key cannot be cached again: after the
   * deadline every lookup misses and every add is refused.
   */
  lemma {:induction false} AbandonedLoanPinsKey(w: World, events: seq<Event>, key: Key, entry: Entry)
    requires SafeRun(w, events) && Pinned(w, key, entry) && !w.cfg.dataCopy && !w.cfg.slamDefense
    requires ClearCache !in events
    ensures
      var w' := After(w, events);
      && Pinned(w', key, entry)
      && (entry.deadline <= w'.now ==>
            Found(w', key) == None && forall now' :: now' >= w'.now ==> !CanAdd(w'.cfg, now', w'.process, key))
    decreases |events|
  {
    if events != [] {
      var last := |events| - 1;
      AbandonedLoanPinsKey(w, events[..last], key, entry);
      RunKeepsConfig(w, events[..last]);
      StepKeepsPinned(After(w, events[..last]), events[last], key, entry);
    }
    PinnedIsBlocked(After(w, events), key, entry);
    RunKeepsConfig(w, events);
  }

  lemma PinnedIsBlocked(w: World, key: Key, entry: Entry)
    requires SafeWorld(w) && Pinned(w, key, entry)
    ensures w.process.table[key].references > 0
  {
    assert CountSafe(SceneOf(w), w.process.table[key]);
  }
}
