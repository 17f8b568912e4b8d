/** What each statistic counts: over every run, the events of one kind. */
module Tallies {
  import opened Wrappers
  import opened SmartStrHeap
  import opened StdHandler
  import opened Connection
  import opened Run
  import Counters

  /** The kinds of event that the statistics count. */
  datatype Kind =
    | SelectSent | OtherSent | SentPast | Granted | SendFailed
    | SetReaped | ReapFailed
    | NoResult | ReplayStored | TableMissing | AddMade | AddRefused
    | Used

  /** The recorded answer is offered to the cache: it is to be cached, and no column without a table forbids it. */
  predicate Offers(w: World, id: ConnId, ini: Ini, result: ResultSet)
    requires id in w.conns
  {
    var c := w.conns[id];
    && c.activeWithCache && c.hook == Record && c.hashKey.Some? && c.recordedData.Some?
    && (ini.cacheNoTable || 0 !in result.tableLengths)
    && (c.shouldCache || result.conditionsAccept)
  }

  /** The step adds an entry to the log. */
  ghost predicate LogGrows(w: World, e: Event) {
    |Step(w, e).history.log| > |w.history.log|
  }

  /** Whether the event is of that kind; `logged` says whether it is recorded in the log. */
  ghost predicate Is(kind: Kind, w: World, e: Event, logged: bool) {
    && e.On? && e.id in w.conns
    && var c := w.conns[e.id];
       match e.call
       case Send(request, pass) =>
         (match kind
          case SelectSent => request.isSelect
          case OtherSent => !request.isSelect
          case SentPast => !logged
          case Granted => logged && request.hashKey.Some? && Found(w, request.hashKey.value).Some?
          case SendFailed => logged && !pass
          case _ => false)
       case Reap(resultSet) =>
         (match kind
          case SetReaped => c.activeWithCache && resultSet
          case ReapFailed => c.activeWithCache && !resultSet
          case _ => false)
       case Receive(_, _) => false
       case Store(ini, result) =>
         (match kind
          case NoResult => result.None?
          case ReplayStored => result.Some? && c.activeWithCache && c.hook == Replay
          case TableMissing =>
            && result.Some? && c.activeWithCache && c.hook == Record && c.hashKey.Some? && c.recordedData.Some?
            && !ini.cacheNoTable && 0 in result.value.tableLengths
          case AddMade => logged
          case AddRefused => result.Some? && Offers(w, e.id, ini, result.value) && !logged
          case _ => false)
       case Use(_) => kind == Used
  }

  function Bit(b: bool): nat {
    if b then 1 else 0
  }

  ghost function Num(kind: Kind, w: World, e: Event): nat {
    Bit(Is(kind, w, e, LogGrows(w, e)))
  }

  ghost function Times(kind: Kind, w: World, events: seq<Event>): nat
    decreases |events|
  {
    if events == [] then 0
    else
      var last := |events| - 1;
      Times(kind, w, events[..last]) + Num(kind, After(w, events[..last]), events[last])
  }

  /** From one world to the next, each statistic grows by its own kinds of event. */
  ghost predicate Grows(s: Statistics, s': Statistics, w: World, e: Event, logged: bool) {
    && s'.shouldCache == s.shouldCache + Bit(Is(SelectSent, w, e, logged))
    && s'.shouldNotCache == s.shouldNotCache + Bit(Is(OtherSent, w, e, logged))
    && s'.notCached == s.notCached + Bit(Is(SentPast, w, e, logged))
    && s'.foundInCache == s.foundInCache + Bit(Is(Granted, w, e, logged))
    && s'.couldCache == s.couldCache + Bit(Is(SetReaped, w, e, logged))
    && s'.uncachedOther == s.uncachedOther + Bit(Is(SendFailed, w, e, logged)) + Bit(Is(ReapFailed, w, e, logged))
    && s'.put == s.put + Bit(Is(AddMade, w, e, logged))
    && s'.uncachedNoTable == s.uncachedNoTable + Bit(Is(TableMissing, w, e, logged))
    && s'.uncachedNoResult == s.uncachedNoResult + Bit(Is(NoResult, w, e, logged))
    && s'.uncachedUseResult == s.uncachedUseResult + Bit(Is(Used, w, e, logged))
    && s'.hit == s.hit + Bit(Is(ReplayStored, w, e, logged)) + 2 * Bit(Is(AddRefused, w, e, logged))
    && s'.miss == s.miss + Bit(Is(AddMade, w, e, logged)) + Bit(Is(TableMissing, w, e, logged))
                 + Bit(Is(NoResult, w, e, logged)) + Bit(Is(Used, w, e, logged))
  }

  // ---- one call ----

  lemma FindIgnoresStatistics(cfg: Config, now: nat, p: Process, stats: Statistics, key: Key)
    ensures Find(cfg, now, p.(stats := stats), key).1 == Find(cfg, now, p, key).1
    ensures Find(cfg, now, p.(stats := stats), key).0.stats == stats
  {
  }

  lemma ArmStatistics(cfg: Config, now: nat, p: Process, c: Conn, key: Key)
    ensures
      var s := p.stats;
      var found := Find(cfg, now, p, key).1.Some?;
      Arm(cfg, now, p, c, key).0.stats == s.(foundInCache := s.foundInCache + Bit(found))
  {
    FindIgnoresStatistics(cfg, now, p, p.stats, key);
    assert p.(stats := p.stats) == p;
  }

  lemma SendStatistics(cfg: Config, now: nat, p: Process, c: Conn, request: Request, pass: bool)
    ensures
      var s, s' := CountQuery(p.stats, request.isSelect), SendQuery(cfg, now, p, c, request, pass).0.stats;
      if CachePath(request) then
        var found := Find(cfg, now, p, request.hashKey.value).1.Some?;
        s' == s.(foundInCache := s.foundInCache + Bit(found), uncachedOther := s.uncachedOther + Bit(!pass))
      else
        s' == s.(notCached := s.notCached + 1)
  {
    if CachePath(request) {
      var stats := CountQuery(p.stats, request.isSelect);
      var ready := c.(shouldCache := request.isSelect, ttl := request.ttl, activeWithCache := true);
      FindIgnoresStatistics(cfg, now, p, stats, request.hashKey.value);
      ArmStatistics(cfg, now, p.(stats := stats), ready, request.hashKey.value);
    }
  }

  lemma SendLog(w: World, id: ConnId, request: Request, pass: bool)
    requires id in w.conns
    ensures LogGrows(w, On(id, Send(request, pass))) <==> CachePath(request)
  {
  }

  lemma StoreLog(w: World, id: ConnId, ini: Ini, result: Option<ResultSet>)
    requires id in w.conns
    ensures LogGrows(w, On(id, Store(ini, result))) <==> Adds(w, w.conns[id], ini, result)
  {
  }

  lemma SendGrows(w: World, id: ConnId, request: Request, pass: bool)
    requires id in w.conns
    ensures
      var s' := SendQuery(w.cfg, w.now, w.process, w.conns[id], request, pass).0.stats;
      Grows(w.process.stats, s', w, On(id, Send(request, pass)), CachePath(request))
  {
    SendStatistics(w.cfg, w.now, w.process, w.conns[id], request, pass);
    var s' := SendQuery(w.cfg, w.now, w.process, w.conns[id], request, pass).0.stats;
    if CachePath(request) {
      LookedUp(w, id, request, pass, s', Found(w, request.hashKey.value).Some?);
    } else {
      WentPast(w, id, request, pass, s');
    }
  }

  lemma LookedUp(w: World, id: ConnId, request: Request, pass: bool, s': Statistics, found: bool)
    requires id in w.conns && request.hashKey.Some? && found == Found(w, request.hashKey.value).Some?
    requires
      var s := CountQuery(w.process.stats, request.isSelect);
      s' == s.(foundInCache := s.foundInCache + Bit(found), uncachedOther := s.uncachedOther + Bit(!pass))
    ensures Grows(w.process.stats, s', w, On(id, Send(request, pass)), true)
  {
  }

  lemma WentPast(w: World, id: ConnId, request: Request, pass: bool, s': Statistics)
    requires id in w.conns
    requires var s := CountQuery(w.process.stats, request.isSelect); s' == s.(notCached := s.notCached + 1)
    ensures Grows(w.process.stats, s', w, On(id, Send(request, pass)), false)
  {
  }

  lemma AddPasses(cfg: Config, now: nat, p: Process, key: Key, a: Address, ttl: nat)
    ensures AddIfNotExists(cfg, now, p, key, a, ttl).1 == CanAdd(cfg, now, p, key)
    ensures AddIfNotExists(cfg, now, p, key, a, ttl).0.stats == p.stats
  {
  }

  lemma FinishStatistics(cfg: Config, now: nat, p: Process, c: Conn, ini: Ini, result: ResultSet)
    requires c.hashKey.Some? && c.recordedData.Some?
    ensures
      var s, s' := p.stats, FinishRecord(cfg, now, p, c, ini, result).stats;
      if NoTable(ini, result) then s' == s.(miss := s.miss + 1, uncachedNoTable := s.uncachedNoTable + 1)
      else if !MayCache(c, result) then s' == s
      else if CanAdd(cfg, now, p, c.hashKey.value) then s' == s.(miss := s.miss + 1, put := s.put + 1)
      else s' == s.(hit := s.hit + 2)
  {
    AddPasses(cfg, now, p, c.hashKey.value, c.recordedData.value, ChosenTtl(c, ini, result));
  }

  lemma ReplayStatistics(cfg: Config, now: nat, p: Process, c: Conn)
    ensures var s := p.stats; FinishReplay(cfg, now, p, c).stats == s.(hit := s.hit + 1)
  {
    if c.hashKey.Some? && c.recordedData.Some? {
      var s := p.stats;
      Counters.HandlerKeepsStatistics(
        cfg, now, p.(stats := s.(hit := s.hit + 1)), c.hashKey.value, c.recordedData.value, 0);
    }
  }

  lemma StoreGrows(w: World, id: ConnId, ini: Ini, result: Option<ResultSet>)
    requires id in w.conns
    ensures
      var s' := StoreResult(w.cfg, w.now, w.process, w.conns[id], ini, result).0.stats;
      Grows(w.process.stats, s', w, On(id, Store(ini, result)), Adds(w, w.conns[id], ini, result))
  {
    var c := w.conns[id];
    if result.Some? && c.activeWithCache && c.hook == Replay {
      ReplayGrows(w, id, ini, result.value);
    } else if result.Some? && c.activeWithCache && c.hook == Record && c.hashKey.Some? && c.recordedData.Some? {
      RecordGrows(w, id, ini, result.value);
    } else {
      PlainStoreGrows(w, id, ini, result);
    }
  }

  lemma ReplayGrows(w: World, id: ConnId, ini: Ini, result: ResultSet)
    requires id in w.conns && w.conns[id].activeWithCache && w.conns[id].hook == Replay
    ensures
      var s' := StoreResult(w.cfg, w.now, w.process, w.conns[id], ini, Some(result)).0.stats;
      Grows(w.process.stats, s', w, On(id, Store(ini, Some(result))), Adds(w, w.conns[id], ini, Some(result)))
  {
    ReplayStatistics(w.cfg, w.now, w.process, w.conns[id]);
    var s' := FinishReplay(w.cfg, w.now, w.process, w.conns[id]).stats;
    assert StoreResult(w.cfg, w.now, w.process, w.conns[id], ini, Some(result)).0.stats == s';
    ReplayCounts(w, id, ini, result, s');
  }

  lemma ReplayCounts(w: World, id: ConnId, ini: Ini, result: ResultSet, s': Statistics)
    requires id in w.conns && w.conns[id].activeWithCache && w.conns[id].hook == Replay
    requires var s := w.process.stats; s' == s.(hit := s.hit + 1)
    ensures Grows(w.process.stats, s', w, On(id, Store(ini, Some(result))), false)
  {
  }

  /** A connection that recorded an answer. */
  predicate Recorded(w: World, id: ConnId) {
    && id in w.conns && w.conns[id].activeWithCache && w.conns[id].hook == Record && w.conns[id].hashKey.Some?
    && w.conns[id].recordedData.Some?
  }

  lemma RecordGrows(w: World, id: ConnId, ini: Ini, result: ResultSet)
    requires Recorded(w, id)
    ensures
      var s' := StoreResult(w.cfg, w.now, w.process, w.conns[id], ini, Some(result)).0.stats;
      Grows(w.process.stats, s', w, On(id, Store(ini, Some(result))), Adds(w, w.conns[id], ini, Some(result)))
  {
    var c := w.conns[id];
    FinishStatistics(w.cfg, w.now, w.process, c, ini, result);
    var s' := FinishRecord(w.cfg, w.now, w.process, c, ini, result).stats;
    assert StoreResult(w.cfg, w.now, w.process, c, ini, Some(result)).0.stats == s';
    var fits := CanAdd(w.cfg, w.now, w.process, c.hashKey.value);
    RecordCounts(w, id, ini, result, s', fits);
    assert Adds(w, c, ini, Some(result)) <==> !NoTable(ini, result) && MayCache(c, result) && fits;
  }

  lemma RecordCounts(w: World, id: ConnId, ini: Ini, result: ResultSet, s': Statistics, fits: bool)
    requires Recorded(w, id)
    requires
      var s := w.process.stats;
      if NoTable(ini, result) then s' == s.(miss := s.miss + 1, uncachedNoTable := s.uncachedNoTable + 1)
      else if !MayCache(w.conns[id], result) then s' == s
      else if fits then s' == s.(miss := s.miss + 1, put := s.put + 1)
      else s' == s.(hit := s.hit + 2)
    ensures
      Grows(w.process.stats, s', w, On(id, Store(ini, Some(result))),
            !NoTable(ini, result) && MayCache(w.conns[id], result) && fits)
  {
    if !NoTable(ini, result) && MayCache(w.conns[id], result) {
      OfferedCounts(w, id, ini, result, s', fits);
    }
  }

  lemma OfferedCounts(w: World, id: ConnId, ini: Ini, result: ResultSet, s': Statistics, fits: bool)
    requires Recorded(w, id) && Offers(w, id, ini, result)
    requires
      var s := w.process.stats;
      s' == if fits then s.(miss := s.miss + 1, put := s.put + 1) else s.(hit := s.hit + 2)
    ensures Grows(w.process.stats, s', w, On(id, Store(ini, Some(result))), fits)
  {
  }

  lemma PlainStoreGrows(w: World, id: ConnId, ini: Ini, result: Option<ResultSet>)
    requires id in w.conns && !(result.Some? && w.conns[id].activeWithCache && w.conns[id].hook == Replay)
    requires result.None? || !Recorded(w, id)
    ensures
      var s' := StoreResult(w.cfg, w.now, w.process, w.conns[id], ini, result).0.stats;
      Grows(w.process.stats, s', w, On(id, Store(ini, result)), Adds(w, w.conns[id], ini, result))
  {
    var s' := StoreResult(w.cfg, w.now, w.process, w.conns[id], ini, result).0.stats;
    PlainStoreCounts(w, id, ini, result, s');
  }

  lemma PlainStoreCounts(w: World, id: ConnId, ini: Ini, result: Option<ResultSet>, s': Statistics)
    requires id in w.conns && !(result.Some? && w.conns[id].activeWithCache && w.conns[id].hook == Replay)
    requires result.None? || !Recorded(w, id)
    requires
      var s := w.process.stats;
      s' == if result.None? then s.(miss := s.miss + 1, uncachedNoResult := s.uncachedNoResult + 1) else s
    ensures Grows(w.process.stats, s', w, On(id, Store(ini, result)), false)
  {
  }

  lemma ReapGrows(w: World, id: ConnId, resultSet: bool, logged: bool)
    requires id in w.conns
    ensures
      Grows(w.process.stats, ReapQuery(w.process, w.conns[id], resultSet).0.stats, w, On(id, Reap(resultSet)), logged)
  {
    ReapCounts(w, id, resultSet, logged, ReapQuery(w.process, w.conns[id], resultSet).0.stats);
  }

  lemma ReapCounts(w: World, id: ConnId, resultSet: bool, logged: bool, s': Statistics)
    requires id in w.conns
    requires
      var s := w.process.stats;
      s' == if !w.conns[id].activeWithCache then s
            else if resultSet then s.(couldCache := s.couldCache + 1)
            else s.(uncachedOther := s.uncachedOther + 1)
    ensures Grows(w.process.stats, s', w, On(id, Reap(resultSet)), logged)
  {
  }

  lemma UseGrows(w: World, id: ConnId, pass: bool, logged: bool)
    requires id in w.conns
    ensures Grows(w.process.stats, UseResult(w.process, w.conns[id], pass).0.stats, w, On(id, Use(pass)), logged)
  {
    UseStatistics(w.process, w.conns[id], pass);
    UseCounts(w, id, pass, logged, UseResult(w.process, w.conns[id], pass).0.stats);
  }

  lemma UseStatistics(p: Process, c: Conn, pass: bool)
    ensures
      var s := p.stats;
      UseResult(p, c, pass).0.stats == s.(miss := s.miss + 1, uncachedUseResult := s.uncachedUseResult + 1)
  {
  }

  lemma UseCounts(w: World, id: ConnId, pass: bool, logged: bool, s': Statistics)
    requires id in w.conns
    requires
      var s := w.process.stats;
      s' == s.(miss := s.miss + 1, uncachedUseResult := s.uncachedUseResult + 1)
    ensures Grows(w.process.stats, s', w, On(id, Use(pass)), logged)
  {
  }

  lemma ReceiveGrows(w: World, id: ConnId, count: nat, reply: Option<Bytes>, logged: bool)
    requires id in w.conns
    ensures
      Grows(w.process.stats, ReceiveData(w.process, w.conns[id], count, reply).0.stats, w,
            On(id, Receive(count, reply)), logged)
  {
    assert ReceiveData(w.process, w.conns[id], count, reply).0.stats == w.process.stats;
  }

  lemma NextStatistics(w: World, id: ConnId, call: Call)
    requires id in w.conns
    ensures Step(w, On(id, call)).process.stats == Act(w.cfg, w.now, w.process, w.conns[id], call).0.stats
  {
  }

  lemma CallGrows(w: World, id: ConnId, call: Call, logged: bool)
    requires id in w.conns && logged == LogGrows(w, On(id, call))
    ensures
      Grows(w.process.stats, Act(w.cfg, w.now, w.process, w.conns[id], call).0.stats, w, On(id, call), logged)
  {
    match call
    case Send(request, pass) =>
      SendLog(w, id, request, pass);
      SendGrows(w, id, request, pass);
    case Store(ini, result) =>
      StoreLog(w, id, ini, result);
      StoreGrows(w, id, ini, result);
    case Reap(resultSet) => ReapGrows(w, id, resultSet, logged);
    case Use(pass) => UseGrows(w, id, pass, logged);
    case Receive(count, reply) => ReceiveGrows(w, id, count, reply, logged);
  }

  lemma StepGrows(w: World, e: Event)
    ensures Grows(w.process.stats, Step(w, e).process.stats, w, e, LogGrows(w, e))
  {
    if e.On? && e.id in w.conns {
      NextStatistics(w, e.id, e.call);
      CallGrows(w, e.id, e.call, LogGrows(w, e));
    } else if e.QueryIsCached? {
      Counters.HandlerKeepsStatistics(w.cfg, w.now, w.process, e.key, 0, 0);
    }
  }

  /** After every run, each statistic is the number of events of its own kinds. */
  lemma {:induction false} StatisticsCountEvents(cfg: Config, now: nat, events: seq<Event>)
    ensures
      var w := Start(cfg, now);
      var s := After(w, events).process.stats;
      && s.shouldCache == Times(SelectSent, w, events)
      && s.shouldNotCache == Times(OtherSent, w, events)
      && s.notCached == Times(SentPast, w, events)
      && s.foundInCache == Times(Granted, w, events)
      && s.couldCache == Times(SetReaped, w, events)
      && s.uncachedOther == Times(SendFailed, w, events) + Times(ReapFailed, w, events)
      && s.put == Times(AddMade, w, events)
      && s.uncachedNoTable == Times(TableMissing, w, events)
      && s.uncachedNoResult == Times(NoResult, w, events)
      && s.uncachedUseResult == Times(Used, w, events)
      && s.hit == Times(ReplayStored, w, events) + 2 * Times(AddRefused, w, events)
      && s.miss == Times(AddMade, w, events) + Times(TableMissing, w, events) + Times(NoResult, w, events)
                   + Times(Used, w, events)
    decreases |events|
  {
    if events != [] {
      var last := |events| - 1;
      StatisticsCountEvents(cfg, now, events[..last]);
      StepGrows(After(Start(cfg, now), events[..last]), events[last]);
    }
  }
}
