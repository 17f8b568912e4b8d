/** Conservation of the statistics over whole runs. */
module Counters {
  import opened Wrappers
  import opened SmartStrHeap
  import opened StdHandler
  import opened Connection
  import opened Run

  /** Every miss is put into the cache or has a reason not to be. */
  predicate MissesAccounted(s: Statistics) {
    s.miss == s.put + s.uncachedNoTable + s.uncachedNoResult + s.uncachedUseResult
  }

  /** Every query ends in one of three counters, or its result was not yet reaped. */
  predicate QueriesAccounted(w: World) {
    var s := w.process.stats;
    s.shouldCache + s.shouldNotCache == s.notCached + s.couldCache + s.uncachedOther + w.history.unreaped
  }

  /** reap_query follows a send that passed, once. */
  predicate Orderly(w: World, e: Event) {
    e.On? && e.id in w.conns && e.call.Reap? && w.conns[e.id].activeWithCache ==> e.id in w.history.awaiting
  }

  ghost predicate OrderlyRun(w: World, events: seq<Event>)
    decreases |events|
  {
    events == [] ||
    var last := |events| - 1;
    OrderlyRun(w, events[..last]) && Orderly(After(w, events[..last]), events[last])
  }

  /** The law of the queries holds in every world of the run. */
  ghost predicate AccountedRun(w: World, events: seq<Event>)
    decreases |events|
  {
    QueriesAccounted(After(w, events)) && (events == [] || AccountedRun(w, events[..|events| - 1]))
  }

  function MissBalance(s: Statistics): int {
    s.miss - s.put - s.uncachedNoTable - s.uncachedNoResult - s.uncachedUseResult
  }

  function QueryBalance(s: Statistics): int {
    s.shouldCache + s.shouldNotCache - s.notCached - s.couldCache - s.uncachedOther
  }

  lemma HandlerKeepsStatistics(cfg: Config, now: nat, p: Process, key: Key, a: Address, ttl: nat)
    ensures Find(cfg, now, p, key).0.stats == p.stats
    ensures IsCached(cfg, now, p, key).0.stats == p.stats
    ensures Return(cfg, now, p, key, a).stats == p.stats
    ensures AddIfNotExists(cfg, now, p, key, a, ttl).0.stats == p.stats
  {
  }

  lemma ArmKeepsBalances(cfg: Config, now: nat, p: Process, c: Conn, key: Key)
    ensures
      var s, s' := p.stats, Arm(cfg, now, p, c, key).0.stats;
      MissBalance(s') == MissBalance(s) && QueryBalance(s') == QueryBalance(s)
  {
    HandlerKeepsStatistics(cfg, now, p, key, 0, 0);
  }

  lemma SendBalances(cfg: Config, now: nat, p: Process, c: Conn, request: Request, pass: bool)
    ensures
      var s, s' := p.stats, SendQuery(cfg, now, p, c, request, pass).0.stats;
      && MissBalance(s') == MissBalance(s)
      && QueryBalance(s') == QueryBalance(s) + if CachePath(request) && pass then 1 else 0
  {
    if CachePath(request) {
      var ready := c.(shouldCache := request.isSelect, ttl := request.ttl, activeWithCache := true);
      ArmedSendBalances(cfg, now, p.(stats := CountQuery(p.stats, request.isSelect)), ready, request, pass);
    }
    CountQueryBalances(p.stats, request.isSelect);
  }

  lemma CountQueryBalances(stats: Statistics, isSelect: bool)
    ensures MissBalance(CountQuery(stats, isSelect)) == MissBalance(stats)
    ensures QueryBalance(CountQuery(stats, isSelect)) == QueryBalance(stats) + 1
  {
  }

  lemma ArmedSendBalances(cfg: Config, now: nat, p: Process, c: Conn, request: Request, pass: bool)
    requires CachePath(request)
    ensures
      var p' := Arm(cfg, now, p, c, request.hashKey.value).0;
      && MissBalance(p'.stats) == MissBalance(p.stats) && QueryBalance(p'.stats) == QueryBalance(p.stats)
      && QueryBalance(p'.stats.(uncachedOther := p'.stats.uncachedOther + 1)) == QueryBalance(p.stats) - 1
  {
    ArmKeepsBalances(cfg, now, p, c, request.hashKey.value);
  }

  lemma FinishBalances(cfg: Config, now: nat, p: Process, c: Conn, ini: Ini, result: ResultSet)
    ensures MissBalance(FinishReplay(cfg, now, p, c).stats) == MissBalance(p.stats)
    ensures QueryBalance(FinishReplay(cfg, now, p, c).stats) == QueryBalance(p.stats)
    ensures MissBalance(FinishRecord(cfg, now, p, c, ini, result).stats) == MissBalance(p.stats)
    ensures QueryBalance(FinishRecord(cfg, now, p, c, ini, result).stats) == QueryBalance(p.stats)
  {
    if c.hashKey.Some? && c.recordedData.Some? {
      var key, a := c.hashKey.value, c.recordedData.value;
      HandlerKeepsStatistics(cfg, now, p, key, a, ChosenTtl(c, ini, result));
      HandlerKeepsStatistics(cfg, now, p.(stats := p.stats.(hit := p.stats.hit + 1)), key, a, 0);
    }
  }

  lemma StoreBalances(cfg: Config, now: nat, p: Process, c: Conn, ini: Ini, result: Option<ResultSet>)
    ensures
      var s, s' := p.stats, StoreResult(cfg, now, p, c, ini, result).0.stats;
      MissBalance(s') == MissBalance(s) && QueryBalance(s') == QueryBalance(s)
  {
    if result.Some? {
      FinishBalances(cfg, now, p, c, ini, result.value);
    }
  }

  lemma CallBalances(w: World, id: ConnId, call: Call)
    requires id in w.conns
    ensures
      var s, s' := w.process.stats, Act(w.cfg, w.now, w.process, w.conns[id], call).0.stats;
      && MissBalance(s') == MissBalance(s)
      && QueryBalance(s') == QueryBalance(s)
           + (if call.Send? && CachePath(call.request) && call.pass then 1 else 0)
           - (if call.Reap? && w.conns[id].activeWithCache then 1 else 0)
  {
    match call
    case Send(request, pass) => SendBalances(w.cfg, w.now, w.process, w.conns[id], request, pass);
    case Store(ini, result) => StoreBalances(w.cfg, w.now, w.process, w.conns[id], ini, result);
    case _ =>
  }

  lemma CallObserved(w: World, id: ConnId, call: Call)
    requires id in w.conns
    ensures Observe(w, On(id, call)).unreaped == w.history.unreaped
              + (if call.Send? && CachePath(call.request) && call.pass then 1 else 0)
              - (if call.Reap? && w.conns[id].activeWithCache && id in w.history.awaiting then 1 else 0)
  {
  }

  lemma StepKeepsAccounts(w: World, e: Event)
    ensures MissesAccounted(w.process.stats) ==> MissesAccounted(Step(w, e).process.stats)
    ensures QueriesAccounted(w) ==> (QueriesAccounted(Step(w, e)) <==> Orderly(w, e))
  {
    if e.On? && e.id in w.conns {
      CallBalances(w, e.id, e.call);
      CallObserved(w, e.id, e.call);
    } else if e.QueryIsCached? {
      HandlerKeepsStatistics(w.cfg, w.now, w.process, e.key, 0, 0);
    }
  }

  lemma {:induction false} MissesAreConserved(cfg: Config, now: nat, events: seq<Event>)
    ensures MissesAccounted(After(Start(cfg, now), events).process.stats)
    decreases |events|
  {
    if events != [] {
      var last := |events| - 1;
      MissesAreConserved(cfg, now, events[..last]);
      StepKeepsAccounts(After(Start(cfg, now), events[..last]), events[last]);
    }
  }

  lemma {:induction false} QueriesAreConserved(cfg: Config, now: nat, events: seq<Event>)
    ensures AccountedRun(Start(cfg, now), events) <==> OrderlyRun(Start(cfg, now), events)
    decreases |events|
  {
    if events != [] {
      var last := |events| - 1;
      QueriesAreConserved(cfg, now, events[..last]);
      StepKeepsAccounts(After(Start(cfg, now), events[..last]), events[last]);
    }
  }

  /** The law of the misses holds after every run, that of the queries throughout exactly the orderly ones. */
  lemma StatisticsAreConserved(cfg: Config, now: nat, events: seq<Event>)
    ensures MissesAccounted(After(Start(cfg, now), events).process.stats)
    ensures AccountedRun(Start(cfg, now), events) <==> OrderlyRun(Start(cfg, now), events)
  {
    MissesAreConserved(cfg, now, events);
    QueriesAreConserved(cfg, now, events);
  }
}
