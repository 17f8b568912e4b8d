/**
 * What is cached, and for how long, in terms of the queries that were sent: the decisions that a send
 * leaves in the fields of a connection are those that store_result acts on.
 */
module AddPolicy {
  import opened Wrappers
  import opened StdHandler
  import opened Connection
  import opened Run
  import opened LoanScene
  import opened LoanRuns
  import opened HookSafety
  import opened CacheLog
  import opened Refinement
  import opened CacheRuns

  // ---- what a send decides ----

  /** A query goes to the cache if it is a SELECT to be cached, or there are conditions, and it has a key. */
  lemma GoesToTheCacheIff(w: World, id: ConnId, request: Request, pass: bool)
    requires id in w.conns
    ensures
      var w' := Step(w, On(id, Send(request, pass)));
      if (request.isSelect || request.hasConditions) && request.hashKey.Some? then
        && w'.conns[id].activeWithCache && w'.history.log == w.history.log + [Asked(request.hashKey.value)]
        && (pass ==> w'.conns[id].hook != Original && w'.history.requests == w.history.requests[id := request])
      else
        && !w'.conns[id].activeWithCache && w'.conns[id].hook == w.conns[id].hook
        && w'.history.log == w.history.log && w'.history.requests == w.history.requests
        && w'.process.table == w.process.table && w'.process.heap == w.process.heap
  {
  }

  /** The fields of a connection that records are those of its latest request. */
  predicate Remembers(c: Conn, requests: map<ConnId, Request>, id: ConnId) {
    c.activeWithCache && c.hook == Record ==>
      && id in requests && c.hashKey == requests[id].hashKey
      && c.shouldCache == requests[id].isSelect && c.ttl == requests[id].ttl
  }

  ghost predicate AllRemember(w: World) {
    forall id :: id in w.conns ==> Remembers(w.conns[id], w.history.requests, id)
  }

  lemma CallerRemembers(w: World, id: ConnId, call: Call)
    requires id in w.conns && Remembers(w.conns[id], w.history.requests, id)
    ensures
      var w' := Step(w, On(id, call));
      Remembers(w'.conns[id], w'.history.requests, id)
  {
    match call
    case Send(_, _) =>
    case Receive(_, _) =>
    case Reap(_) =>
    case Store(_, _) =>
    case Use(_) =>
  }

  lemma OthersRemember(w: World, id: ConnId, call: Call, other: ConnId)
    requires id in w.conns && other in w.conns && other != id
    ensures
      var w' := Step(w, On(id, call));
      && other in w'.conns && w'.conns[other] == w.conns[other]
      && (other in w.history.requests ==>
            other in w'.history.requests && w'.history.requests[other] == w.history.requests[other])
  {
  }

  lemma StepRemembers(w: World, e: Event)
    requires AllRemember(w)
    ensures AllRemember(Step(w, e))
  {
    var w' := Step(w, e);
    forall id | id in w'.conns ensures Remembers(w'.conns[id], w'.history.requests, id) {
      assert id in w.conns ==> Remembers(w.conns[id], w.history.requests, id);
      if e.On? && e.id in w.conns {
        if id == e.id {
          CallerRemembers(w, id, e.call);
        } else {
          OthersRemember(w, e.id, e.call, id);
        }
      }
    }
  }

  lemma {:induction false} RunRemembers(cfg: Config, now: nat, events: seq<Event>)
    ensures AllRemember(After(Start(cfg, now), events))
    decreases |events|
  {
    if events != [] {
      var last := |events| - 1;
      RunRemembers(cfg, now, events[..last]);
      StepRemembers(After(Start(cfg, now), events[..last]), events[last]);
    }
  }

  // ---- what store_result does about it ----

  /** The time an answer is cached for: that of the hint, of the condition unless it is a SELECT, or the default. */
  predicate RightTtl(request: Request, ini: Ini, result: ResultSet, ttl: nat) {
    && (request.ttl > 0 ==> ttl == request.ttl)
    && (request.ttl == 0 && !request.isSelect && result.conditionTtl > 0 ==> ttl == result.conditionTtl)
    && (request.ttl == 0 && (request.isSelect || result.conditionTtl == 0) ==> ttl == ini.ttl)
  }

  /** A SELECT, or the conditions accept it; and every column comes from a table, or that does not matter. */
  predicate Cacheable(request: Request, ini: Ini, result: ResultSet) {
    && (request.isSelect || result.conditionsAccept)
    && (ini.cacheNoTable || forall i :: 0 <= i < |result.tableLengths| ==> result.tableLengths[i] > 0)
  }

  /** Nothing stands under the key, or only what nobody wants any more. */
  predicate Vacant(cfg: Config, now: nat, table: map<Key, Entry>, key: Key) {
    key in table ==>
      table[key].deadline < now && table[key].references == 0 && (cfg.slamDefense ==> table[key].inRefresh)
  }

  lemma StoreAddsIff(w: World, id: ConnId, ini: Ini, result: Option<ResultSet>)
    requires id in w.conns && Armed(w.conns[id]) && Remembers(w.conns[id], w.history.requests, id)
    ensures
      var w', c := Step(w, On(id, Store(ini, result))), w.conns[id];
      var request := RequestOf(w.history, id);
      if result.Some? && c.activeWithCache && c.hook == Record && Cacheable(request, ini, result.value)
         && Vacant(w.cfg, w.now, w.process.table, c.hashKey.value)
      then Adds(w, c, ini, result) && RightTtl(request, ini, result.value, ChosenTtl(c, ini, result.value))
      else !Adds(w, c, ini, result) && w'.history.log == w.history.log
  {
    if result.Some? {
      NoTableIff(ini, result.value);
    }
  }

  lemma NoTableIff(ini: Ini, result: ResultSet)
    ensures !NoTable(ini, result) <==>
            ini.cacheNoTable || forall i :: 0 <= i < |result.tableLengths| ==> result.tableLengths[i] > 0
  {
    if forall i :: 0 <= i < |result.tableLengths| ==> result.tableLengths[i] > 0 {
      assert 0 !in result.tableLengths;
    } else {
      var i :| 0 <= i < |result.tableLengths| && result.tableLengths[i] == 0;
      assert 0 in result.tableLengths;
    }
  }

  /**
   * After every run, good or bad: store_result adds an answer if and only if it was recorded for a cacheable
   * query and its key is vacant, and then for the right time.
   */
  lemma AnswerIsStoredIff(cfg: Config, now: nat, events: seq<Event>, id: ConnId, ini: Ini, result: Option<ResultSet>)
    requires id in After(Start(cfg, now), events).conns
    ensures
      var w := After(Start(cfg, now), events);
      var w', c, request := Step(w, On(id, Store(ini, result))), w.conns[id], RequestOf(w.history, id);
      if result.Some? && c.activeWithCache && c.hook == Record && Cacheable(request, ini, result.value)
         && c.hashKey.Some? && Vacant(cfg, w.now, w.process.table, c.hashKey.value)
      then
        && request.hashKey.Some? && request.hashKey.value in w'.process.table
        && var entry := w'.process.table[request.hashKey.value];
           && w'.process.table == w.process.table[request.hashKey.value := entry]
           && entry.deadline >= w.now && RightTtl(request, ini, result.value, entry.deadline - w.now)
           && Some(entry.cachedQuery) == c.recordedData && !entry.inRefresh && entry.references == 0
           && exists item: LogItem ::
                && item.Added? && w'.history.log == w.history.log + [item] && item.key == request.hashKey.value
                && item.request == request && item.addedAt == w.now && Deadline(item) == entry.deadline
      else w'.history.log == w.history.log
  {
    var w := After(Start(cfg, now), events);
    var c := w.conns[id];
    RunRemembers(cfg, now, events);
    HooksAreAlwaysSound(cfg, now, events);
    RunKeepsConfig(Start(cfg, now), events);
    assert ConnSound(w.process, c) && Remembers(c, w.history.requests, id);
    StoreAddsIff(w, id, ini, result);
    if Adds(w, c, ini, result) {
      AddedIs(w, id, ini, result);
      var w' := Step(w, On(id, Store(ini, result)));
      assert w'.history.log[|w.history.log|].Added?;
    }
  }

  // ---- the hint in the log, and at a lookup ----

  /** What was added stands under the key of the request it answers, for the time of its hint if that has one. */
  predicate Honoured(item: LogItem) {
    item.Added? ==> item.request.hashKey == Some(item.key) && (item.request.ttl > 0 ==> item.ttl == item.request.ttl)
  }

  ghost predicate AllHonoured(log: seq<LogItem>) {
    forall j :: 0 <= j < |log| ==> Honoured(log[j])
  }

  lemma StepHonours(w: World, e: Event)
    requires AllHonoured(w.history.log) && AllRemember(w) && HooksSound(w)
    ensures AllHonoured(Step(w, e).history.log)
  {
    if e.On? && e.id in w.conns && e.call.Store? {
      assert ConnSound(w.process, w.conns[e.id]) && Remembers(w.conns[e.id], w.history.requests, e.id);
      StoreAddsIff(w, e.id, e.call.ini, e.call.result);
    }
    OneMoreItem(w, e);
  }

  lemma OneMoreItem(w: World, e: Event)
    requires e.On? && e.id in w.conns && e.call.Store? && Adds(w, w.conns[e.id], e.call.ini, e.call.result) ==>
               && RequestOf(w.history, e.id).hashKey == w.conns[e.id].hashKey
               && RightTtl(RequestOf(w.history, e.id), e.call.ini, e.call.result.value,
                           ChosenTtl(w.conns[e.id], e.call.ini, e.call.result.value))
    ensures
      var log, log' := w.history.log, Step(w, e).history.log;
      log' == log || (log' == log + [log'[|log|]] && Honoured(log'[|log|]))
  {
  }

  /** So in every run, good or bad. */
  lemma {:induction false} HintsAreHonoured(cfg: Config, now: nat, events: seq<Event>)
    ensures AllHonoured(After(Start(cfg, now), events).history.log)
    decreases |events|
  {
    if events != [] {
      var last := |events| - 1;
      HintsAreHonoured(cfg, now, events[..last]);
      RunRemembers(cfg, now, events[..last]);
      HooksAreAlwaysSound(cfg, now, events[..last]);
      StepHonours(After(Start(cfg, now), events[..last]), events[last]);
    }
  }

  /**
   * Without slam defence, whatever a lookup finds was added in answer to a request with that key, and if
   * that request had a hint, less than so many seconds ago.
   */
  lemma HintBoundsLookups(cfg: Config, now: nat, events: seq<Event>, key: Key)
    requires GoodRun(Start(cfg, now), events) && !cfg.slamDefense
    requires FoundBytes(After(Start(cfg, now), events), key).Some?
    ensures
      var w := After(Start(cfg, now), events);
      exists j: nat ::
        && j < |w.history.log| && w.history.log[j].Added?
        && var item := w.history.log[j];
           && FoundBytes(w, key) == Some(item.bytes) && item.request.hashKey == Some(key)
           && (item.request.ttl > 0 ==> w.now < item.addedAt + item.request.ttl)
  {
    LookupsFollowTheLog(cfg, now, events, key);
    HintsAreHonoured(cfg, now, events);
    var w := After(Start(cfg, now), events);
    var j := Latest(w.history.log, key).value;
    assert Honoured(w.history.log[j]);
  }

  // ---- what is not to be cached ----

  /** A result used unbuffered, a reap without a result set, and a stored result leave nothing to be added. */
  lemma NothingLeftToAdd(w: World, id: ConnId, call: Call, ini: Ini, result: Option<ResultSet>)
    requires id in w.conns
    requires call == Use(true) ||
             (w.conns[id].activeWithCache && (call == Reap(false) || (call.Store? && call.result.Some?)))
    ensures
      var w' := Step(w, On(id, call));
      && w'.conns[id].hook == Original
      && Step(w', On(id, Store(ini, result))).history.log == w'.history.log
  {
  }
}
