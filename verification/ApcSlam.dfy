/**
 * Slam defence in the APC storage handler: when an entry has expired, one caller is to be sent to the
 * server, and the others are given the stale data for a while.
 *
 * APC keeps an entry for its own time to live, for ever if that is zero, and may drop it at any time.
 * `stored` says whether APC accepts what the operation stores; a store that it refuses changes nothing.
 */
module ApcSlam {
  import opened Wrappers

  type Key = string

  datatype Config = Config(slamDefense: bool, slamTtl: nat)

  /** What the handler keeps in an entry, except for the statistics. */
  datatype Record = Record(data: string, validUntil: nat, inRefreshUntil: nat, hits: nat)

  datatype Slot = Slot(record: Record, stored: nat, ttl: nat)

  type Store = map<Key, Slot>

  /** apc_cache_user_find finds the entry. */
  predicate Alive(store: Store, key: Key, now: nat) {
    key in store && (store[key].ttl == 0 || now <= store[key].stored + store[key].ttl)
  }

  // ---- the operations of the handler ----

  predicate Stale(record: Record, now: nat) {
    record.validUntil < now
  }

  /** The time the entry is good for, negative if it is not. */
  function TimeLeft(cfg: Config, record: Record, now: nat): int {
    if !cfg.slamDefense then record.validUntil - now
    else if record.validUntil >= now then 0
    else if record.inRefreshUntil == 0 then cfg.slamTtl
    else record.inRefreshUntil - now
  }

  /** The caller that finds a stale entry first takes it on itself to refresh it, and is given nothing. */
  predicate FindClaims(cfg: Config, store: Store, now: nat, key: Key) {
    && Alive(store, key, now) && cfg.slamDefense
    && Stale(store[key].record, now) && store[key].record.inRefreshUntil == 0
  }

  function Find(cfg: Config, store: Store, now: nat, key: Key, stored: bool): (Store, Option<string>) {
    if !Alive(store, key, now) || TimeLeft(cfg, store[key].record, now) < 0 then (store, None)
    // the entry is deleted before it is stored again
    else if !stored then (store - {key}, None)
    else
      var claims, record := FindClaims(cfg, store, now, key), store[key].record;
      var left := TimeLeft(cfg, record, now);
      var until := if claims then cfg.slamTtl + now else record.inRefreshUntil;
      (store[key := Slot(record.(inRefreshUntil := until, hits := record.hits + 1), now, left)],
       // the terminating NUL is copied along
       if claims then None else Some(record.data + "\0"))
  }

  /** Here an entry is stale a second earlier. */
  predicate AskClaims(cfg: Config, store: Store, now: nat, key: Key) {
    && Alive(store, key, now) && cfg.slamDefense
    && store[key].record.validUntil <= now && store[key].record.inRefreshUntil == 0
  }

  function IsCached(cfg: Config, store: Store, now: nat, key: Key, stored: bool): (Store, bool) {
    if !Alive(store, key, now) then (store, false)
    else
      var record := store[key].record;
      if record.validUntil > now then (store, true)
      else if !cfg.slamDefense then (store, false)
      else if record.inRefreshUntil == 0 then
        (if stored then store[key := Slot(record.(inRefreshUntil := cfg.slamTtl + now), now, cfg.slamTtl)] else store,
         cfg.slamTtl > 0)
      else (store, record.inRefreshUntil > now)
  }

  /** An entry that is there keeps its data, whatever is added. */
  function AddIfNotExists(cfg: Config, store: Store, now: nat, key: Key, data: string, ttl: nat, stored: bool)
    : (Store, bool)
  {
    if !Alive(store, key, now) then
      (if stored then store[key := Slot(Record(data, now + ttl, 0, 0), now, if cfg.slamDefense then 0 else ttl)]
       else store - {key},
       stored)
    else if !cfg.slamDefense then (store, true)
    else if !stored then (store, false)
    else (store[key := Slot(store[key].record.(inRefreshUntil := 0, validUntil := ttl + now), now, 0)], true)
  }

  /** update_cache_stats stores the entry anew, with the time it is still good for. */
  function UpdateStats(cfg: Config, store: Store, now: nat, key: Key, stored: bool): Store {
    if !Alive(store, key, now) || FindClaims(cfg, store, now, key) then store
    else if TimeLeft(cfg, store[key].record, now) < 0 then store
    else if !stored then store - {key}
    else store[key := Slot(store[key].record, now, TimeLeft(cfg, store[key].record, now))]
  }

  class ApcHandler {
    const cfg: Config
    var store: Store

    constructor (cfg: Config)
      ensures this.cfg == cfg && store == map[]
    {
      this.cfg, store := cfg, map[];
    }

    method FindQueryInCache(now: nat, key: Key, stored: bool) returns (cached: Option<string>)
      modifies this
      ensures (store, cached) == Find(cfg, old(store), now, key, stored)
    {
      cached := None;
      if Alive(store, key, now) {
        var record, slamStaleRefresh := store[key].record, false;
        var ttl: int := record.validUntil - now;
        if cfg.slamDefense {
          if ttl >= 0 {
            ttl := 0;
          } else if record.inRefreshUntil == 0 {
            record := record.(inRefreshUntil := cfg.slamTtl + now);
            ttl := cfg.slamTtl;
            slamStaleRefresh := true;
          } else {
            ttl := record.inRefreshUntil - now;
          }
        }
        if ttl < 0 {
          return;
        }
        if !slamStaleRefresh {
          cached := Some(record.data + "\0");
        }
        record := record.(hits := record.hits + 1);
        store := store - {key};
        if stored {
          store := store[key := Slot(record, now, ttl)];
        } else {
          cached := None;
        }
        assert store == Find(cfg, old(store), now, key, stored).0;
      }
    }

    method QueryIsCached(now: nat, key: Key, stored: bool) returns (cached: bool)
      modifies this
      ensures (store, cached) == IsCached(cfg, old(store), now, key, stored)
    {
      cached := false;
      if Alive(store, key, now) {
        var record := store[key].record;
        var ttl: int := record.validUntil - now;
        if ttl > 0 {
          return true;
        }
        if cfg.slamDefense {
          if record.inRefreshUntil == 0 {
            record := record.(inRefreshUntil := cfg.slamTtl + now);
            ttl := cfg.slamTtl;
            if stored {
              store := store[key := Slot(record, now, ttl)];
            }
          } else {
            ttl := record.inRefreshUntil - now;
          }
          cached := ttl > 0;
        }
      }
    }

    /** The statistics themselves are not modelled. */
    method UpdateCacheStats(now: nat, key: Key, stored: bool)
      modifies this
      ensures store == UpdateStats(cfg, old(store), now, key, stored)
    {
      if Alive(store, key, now) {
        var record := store[key].record;
        var ttl: int := record.validUntil - now;
        if cfg.slamDefense {
          if ttl >= 0 {
            ttl := 0;
          } else if record.inRefreshUntil == 0 {
            return;
          } else {
            ttl := record.inRefreshUntil - now;
          }
        }
        if ttl < 0 {
          return;
        }
        store := store - {key};
        if stored {
          store := store[key := Slot(record, now, ttl)];
        }
        assert store == UpdateStats(cfg, old(store), now, key, stored);
      }
    }

    method AddQueryToCacheIfNotExists(now: nat, key: Key, data: string, ttl: nat, stored: bool) returns (pass: bool)
      modifies this
      ensures (store, pass) == AddIfNotExists(cfg, old(store), now, key, data, ttl, stored)
    {
      pass := false;
      if Alive(store, key, now) {
        if cfg.slamDefense {
          var record := store[key].record;
          record := record.(inRefreshUntil := 0, validUntil := ttl + now);
          if stored {
            store := store[key := Slot(record, now, 0)];
            pass := true;
          }
        } else {
          pass := true;
        }
      } else {
        var apcTtl := if cfg.slamDefense then 0 else ttl;
        store := store - {key};
        if stored {
          store := store[key := Slot(Record(data, now + ttl, 0, 0), now, apcTtl)];
          pass := true;
        }
        assert store == AddIfNotExists(cfg, old(store), now, key, data, ttl, stored).0;
      }
    }
  }

  // ---- runs ----

  datatype Event =
    | Lookup(key: Key, stored: bool)
    | Ask(key: Key, stored: bool)
    | Add(key: Key, data: string, ttl: nat, stored: bool)
    | Stats(key: Key, stored: bool)
    | Drop(key: Key)
    | Tick(time: nat)

  datatype World = World(cfg: Config, now: nat, store: Store)

  /** Time is at least 1, and does not go back. */
  function Step(w: World, e: Event): World {
    match e
    case Lookup(key, stored) => w.(store := Find(w.cfg, w.store, w.now, key, stored).0)
    case Ask(key, stored) => w.(store := IsCached(w.cfg, w.store, w.now, key, stored).0)
    case Add(key, data, ttl, stored) => w.(store := AddIfNotExists(w.cfg, w.store, w.now, key, data, ttl, stored).0)
    case Stats(key, stored) => w.(store := UpdateStats(w.cfg, w.store, w.now, key, stored))
    case Drop(key) => w.(store := w.store - {key})
    case Tick(time) => if time > w.now then w.(now := time) else w
  }

  function After(w: World, events: seq<Event>): World
    decreases |events|
  {
    if events == [] then w else After(Step(w, events[0]), events[1..])
  }

  predicate Claims(w: World, e: Event, key: Key) {
    || (e.Lookup? && e.key == key && FindClaims(w.cfg, w.store, w.now, key))
    || (e.Ask? && e.key == key && e.stored && AskClaims(w.cfg, w.store, w.now, key))
  }

  function CountClaims(w: World, events: seq<Event>, key: Key): nat
    decreases |events|
  {
    if events == [] then 0
    else (if Claims(w, events[0], key) then 1 else 0) + CountClaims(Step(w, events[0]), events[1..], key)
  }

  function CountAdds(events: seq<Event>, key: Key): nat {
    if events == [] then 0 else (if events[0].Add? && events[0].key == key then 1 else 0) + CountAdds(events[1..], key)
  }

  /** The entry is there afterwards if it was before. */
  predicate Keeps(e: Event, key: Key) {
    (e.Drop? || ((e.Lookup? || e.Stats?) && !e.stored)) ==> e.key != key
  }

  /** Neither adds nor drops the entry. */
  predicate LeavesAlone(e: Event, key: Key) {
    Keeps(e, key) && (e.Add? ==> e.key != key)
  }

  /**
   * An add says that it passed if and only if APC stored what it was given or, without slam defence, there was
   * nothing to store for an entry that is still there. What passed is there afterwards.
   */
  lemma AddPassesIff(cfg: Config, store: Store, now: nat, key: Key, data: string, ttl: nat, stored: bool)
    ensures
      var (store', pass) := AddIfNotExists(cfg, store, now, key, data, ttl, stored);
      && (pass <==> stored || (!cfg.slamDefense && Alive(store, key, now)))
      && (pass ==> Alive(store', key, now))
      && (!pass ==> store' == if Alive(store, key, now) then store else store - {key})
  {
  }

  // ---- one claim for each add ----

  /** Nobody can claim the refresh of the entry. */
  predicate Taken(w: World, key: Key) {
    key in w.store ==> w.store[key].record.inRefreshUntil != 0
  }

  lemma OnlyAddsFree(w: World, e: Event, key: Key)
    requires w.now > 0 && Taken(w, key) && !(e.Add? && e.key == key)
    ensures Taken(Step(w, e), key) && !Claims(w, e, key)
  {
  }

  lemma ClaimTakes(w: World, e: Event, key: Key)
    requires w.now > 0 && Claims(w, e, key)
    ensures Taken(Step(w, e), key)
  {
  }

  lemma StepKeepsClock(w: World, e: Event)
    ensures Step(w, e).now >= w.now && Step(w, e).cfg == w.cfg
  {
  }

  /** Two claims on a key never come without an add between them, whatever else happens. */
  lemma {:induction false} ClaimsNeedAdds(w: World, events: seq<Event>, key: Key)
    requires w.now > 0
    ensures CountClaims(w, events, key) <= CountAdds(events, key) + if Taken(w, key) then 0 else 1
    decreases |events|
  {
    if events != [] {
      var e := events[0];
      StepKeepsClock(w, e);
      ClaimsNeedAdds(Step(w, e), events[1..], key);
      if Claims(w, e, key) {
        ClaimTakes(w, e, key);
      }
      if Taken(w, key) && !(e.Add? && e.key == key) {
        OnlyAddsFree(w, e, key);
      }
    }
  }

  // ---- before the claim ----

  predicate Unclaimed(w: World, key: Key, data: string, deadline: nat) {
    w.cfg.slamDefense && key in w.store
    && var slot := w.store[key];
       && slot.record.data == data && slot.record.validUntil == deadline
       && slot.record.inRefreshUntil == 0 && slot.ttl == 0
  }

  /** Every add leaves an unclaimed entry, but only the first one stores its data. */
  lemma AddStartsUnclaimed(w: World, e: Event, key: Key)
    requires w.cfg.slamDefense && e.Add? && e.key == key && e.stored
    ensures
      var data := if Alive(w.store, key, w.now) then w.store[key].record.data else e.data;
      Unclaimed(Step(w, e), key, data, w.now + e.ttl)
  {
  }

  /**
   * An unclaimed entry, as an add leaves it, stays as it is: lookups are given its data up to the
   * deadline, and the next one claims it.
   */
  lemma {:induction false} UnclaimedEntryWaits(w: World, events: seq<Event>, key: Key, data: string, deadline: nat)
    requires Unclaimed(w, key, data, deadline) && CountClaims(w, events, key) == 0
    requires forall i :: 0 <= i < |events| ==> LeavesAlone(events[i], key)
    ensures
      var w' := After(w, events);
      && Find(w'.cfg, w'.store, w'.now, key, true).1 == (if w'.now <= deadline then Some(data + "\0") else None)
      && (Claims(w', Lookup(key, true), key) <==> w'.now > deadline)
      && (IsCached(w'.cfg, w'.store, w'.now, key, true).1 <==> w'.now < deadline || w'.cfg.slamTtl > 0)
    decreases |events|
  {
    if events != [] {
      StepKeepsUnclaimed(w, events[0], key, data, deadline);
      UnclaimedEntryWaits(Step(w, events[0]), events[1..], key, data, deadline);
    }
  }

  lemma StepKeepsUnclaimed(w: World, e: Event, key: Key, data: string, deadline: nat)
    requires Unclaimed(w, key, data, deadline) && LeavesAlone(e, key) && !Claims(w, e, key)
    ensures Unclaimed(Step(w, e), key, data, deadline)
  {
  }

  // ---- the window ----

  /** The entry was claimed; until then APC has it, and it has the same data. */
  predicate InRefresh(w: World, key: Key, data: string, until: nat) {
    && w.cfg.slamDefense && key in w.store
    && var slot := w.store[key];
       && slot.record.data == data && slot.record.inRefreshUntil == until && until > 0
       && slot.record.validUntil <= w.now && slot.record.validUntil <= until
       && (slot.ttl == 0 || slot.stored + slot.ttl >= until)
  }

  lemma ClaimStartsRefresh(w: World, e: Event, key: Key)
    requires w.now > 0 && Claims(w, e, key) && e.stored
    ensures InRefresh(Step(w, e), key, w.store[key].record.data, w.now + w.cfg.slamTtl)
  {
  }

  lemma StepKeepsRefresh(w: World, e: Event, key: Key, data: string, until: nat)
    requires InRefresh(w, key, data, until) && LeavesAlone(e, key)
    ensures InRefresh(Step(w, e), key, data, until)
  {
  }

  lemma {:induction false} RunKeepsRefresh(w: World, events: seq<Event>, key: Key, data: string, until: nat)
    requires InRefresh(w, key, data, until) && forall i :: 0 <= i < |events| ==> LeavesAlone(events[i], key)
    ensures InRefresh(After(w, events), key, data, until)
    decreases |events|
  {
    if events != [] {
      StepKeepsRefresh(w, events[0], key, data, until);
      RunKeepsRefresh(Step(w, events[0]), events[1..], key, data, until);
    }
  }

  /**
   * After a claim, as long as the entry is neither added nor dropped, lookups are given the stale data
   * up to and including the end of the slam window, and nothing after it; query_is_cached agrees,
   * except at the end itself.
   */
  lemma RefreshWindow(w: World, claim: Event, events: seq<Event>, key: Key)
    requires w.now > 0 && Claims(w, claim, key) && claim.stored
    requires forall i :: 0 <= i < |events| ==> LeavesAlone(events[i], key)
    ensures
      var w', until := After(Step(w, claim), events), w.now + w.cfg.slamTtl;
      && Find(w'.cfg, w'.store, w'.now, key, true).1 ==
           (if w'.now <= until then Some(w.store[key].record.data + "\0") else None)
      && (IsCached(w'.cfg, w'.store, w'.now, key, true).1 <==> w'.now < until)
  {
    ClaimStartsRefresh(w, claim, key);
    RunKeepsRefresh(Step(w, claim), events, key, w.store[key].record.data, w.now + w.cfg.slamTtl);
  }

  // ---- what a refresh does not do ----

  /**
   * The refresher's add extends the time of the entry and frees it for another claim, but throws the
   * fresh data away: lookups are given the old data until the new deadline.
   */
  lemma RefreshKeepsOldData(w: World, e: Event, key: Key, later: nat)
    requires w.cfg.slamDefense && Alive(w.store, key, w.now) && e.Add? && e.key == key && e.stored
    requires w.now <= later <= w.now + e.ttl
    ensures Find(w.cfg, Step(w, e).store, later, key, true).1 == Some(w.store[key].record.data + "\0")
    ensures FindClaims(w.cfg, Step(w, e).store, w.now + e.ttl + 1, key)
  {
  }

  /**
   * A claim made by query_is_cached is lost: it answers that the query is cached, so nobody is sent to
   * the server before the window ends.
   */
  lemma AskedClaimIsLost(w: World, events: seq<Event>, key: Key)
    requires w.now > 0 && Claims(w, Ask(key, true), key) && w.cfg.slamTtl > 0
    requires forall i :: 0 <= i < |events| ==> LeavesAlone(events[i], key)
    requires After(Step(w, Ask(key, true)), events).now <= w.now + w.cfg.slamTtl
    ensures IsCached(w.cfg, w.store, w.now, key, true).1
    ensures var w' := After(Step(w, Ask(key, true)), events); Find(w'.cfg, w'.store, w'.now, key, true).1.Some?
  {
    RefreshWindow(w, Ask(key, true), events, key);
  }

  // ---- without slam defence: the data is found up to the deadline ----

  /** The entry holds the data, was looked up so often, and APC keeps it at least up to its deadline. */
  predicate Held(w: World, key: Key, data: string, deadline: nat, hits: nat) {
    && !w.cfg.slamDefense && w.now <= deadline && key in w.store
    && var slot := w.store[key];
       && slot.record == Record(data, deadline, 0, hits)
       && (slot.ttl == 0 || slot.stored + slot.ttl == deadline)
  }

  function CountLookups(events: seq<Event>, key: Key): nat {
    if events == [] then 0
    else (if events[0].Lookup? && events[0].key == key then 1 else 0) + CountLookups(events[1..], key)
  }

  lemma StepKeepsHeld(w: World, e: Event, key: Key, data: string, deadline: nat, hits: nat)
    requires Held(w, key, data, deadline, hits) && Keeps(e, key) && Step(w, e).now <= deadline
    ensures Held(Step(w, e), key, data, deadline, if e.Lookup? && e.key == key then hits + 1 else hits)
  {
  }

  lemma {:induction false} RunKeepsClock(w: World, events: seq<Event>)
    ensures After(w, events).now >= w.now
    decreases |events|
  {
    if events != [] {
      StepKeepsClock(w, events[0]);
      RunKeepsClock(Step(w, events[0]), events[1..]);
    }
  }

  lemma {:induction false} RunKeepsHeld(
    w: World, events: seq<Event>, key: Key, data: string, deadline: nat, hits: nat)
    requires Held(w, key, data, deadline, hits) && forall i :: 0 <= i < |events| ==> Keeps(events[i], key)
    requires After(w, events).now <= deadline
    ensures Held(After(w, events), key, data, deadline, hits + CountLookups(events, key))
    decreases |events|
  {
    if events != [] {
      var e := events[0];
      RunKeepsClock(Step(w, e), events[1..]);
      StepKeepsHeld(w, e, key, data, deadline, hits);
      RunKeepsHeld(Step(w, e), events[1..], key, data, deadline, if e.Lookup? && e.key == key then hits + 1 else hits);
    }
  }

  /**
   * What an add stored is what every lookup is given, up to and including the deadline, whatever else is
   * done, as long as APC keeps the entry; query_is_cached says so too, except at the deadline itself. Later
   * adds change nothing, and every lookup is counted.
   */
  lemma AddedDataIsFound(w: World, add: Event, events: seq<Event>, key: Key)
    requires !w.cfg.slamDefense && add.Add? && add.key == key && add.stored && !Alive(w.store, key, w.now)
    requires forall i :: 0 <= i < |events| ==> Keeps(events[i], key)
    requires After(Step(w, add), events).now <= w.now + add.ttl
    ensures
      var w' := After(Step(w, add), events);
      && Find(w'.cfg, w'.store, w'.now, key, true).1 == Some(add.data + "\0")
      && (IsCached(w'.cfg, w'.store, w'.now, key, true).1 <==> w'.now < w.now + add.ttl)
      && key in w'.store && w'.store[key].record.hits == CountLookups(events, key)
  {
    RunKeepsHeld(Step(w, add), events, key, add.data, w.now + add.ttl, 0);
  }

  // ---- without slam defence: when an expired entry can be replaced ----

  /** APC will drop the entry right after the deadline. */
  predicate Ticking(w: World, key: Key, deadline: nat) {
    && !w.cfg.slamDefense && key in w.store
    && var slot := w.store[key];
       slot.record.validUntil == deadline && slot.ttl > 0 && slot.stored + slot.ttl == deadline
  }

  /** The entry has come to its deadline, and APC keeps it for ever. */
  predicate Frozen(w: World, key: Key, deadline: nat) {
    && !w.cfg.slamDefense && key in w.store && deadline <= w.now
    && w.store[key].record.validUntil == deadline && w.store[key].ttl == 0
  }

  /** The entry is looked up, or its statistics are updated, just at the deadline. */
  predicate TouchedAt(w: World, events: seq<Event>, key: Key, deadline: nat)
    decreases |events|
  {
    events != [] &&
    (|| ((events[0].Lookup? || events[0].Stats?) && events[0].key == key && w.now == deadline)
     || TouchedAt(Step(w, events[0]), events[1..], key, deadline))
  }

  /** An add that finds nothing starts the clock, except for a time to live of zero. */
  lemma AddStartsTicking(w: World, e: Event, key: Key)
    requires !w.cfg.slamDefense && e.Add? && e.key == key && e.stored && !Alive(w.store, key, w.now)
    ensures Step(w, e).store[key].record.data == e.data
    ensures if e.ttl > 0 then Ticking(Step(w, e), key, w.now + e.ttl) else Frozen(Step(w, e), key, w.now)
  {
  }

  lemma StepOfTicking(w: World, e: Event, key: Key, deadline: nat)
    requires Ticking(w, key, deadline) && LeavesAlone(e, key)
    ensures if (e.Lookup? || e.Stats?) && e.key == key && w.now == deadline then Frozen(Step(w, e), key, deadline)
            else Ticking(Step(w, e), key, deadline)
    ensures Step(w, e).store[key].record.data == w.store[key].record.data
  {
  }

  lemma StepOfFrozen(w: World, e: Event, key: Key, deadline: nat)
    requires Frozen(w, key, deadline) && Keeps(e, key)
    ensures Frozen(Step(w, e), key, deadline) && Step(w, e).store[key].record.data == w.store[key].record.data
  {
  }

  /** A frozen entry outlasts every run that does not drop it, adds included, with its data and its deadline. */
  lemma {:induction false} FrozenForEver(w: World, events: seq<Event>, key: Key, deadline: nat)
    requires Frozen(w, key, deadline) && forall i :: 0 <= i < |events| ==> Keeps(events[i], key)
    ensures
      var w' := After(w, events);
      && Frozen(w', key, deadline) && w'.store[key].record.data == w.store[key].record.data
      && (w'.now > deadline ==> Find(w'.cfg, w'.store, w'.now, key, true).1 == None)
      && forall data, ttl :: AddIfNotExists(w'.cfg, w'.store, w'.now, key, data, ttl, true) == (w'.store, true)
    decreases |events|
  {
    if events != [] {
      StepOfFrozen(w, events[0], key, deadline);
      FrozenForEver(Step(w, events[0]), events[1..], key, deadline);
    }
  }

  lemma {:induction false} RunOfTicking(w: World, events: seq<Event>, key: Key, deadline: nat)
    requires Ticking(w, key, deadline) && forall i :: 0 <= i < |events| ==> LeavesAlone(events[i], key)
    ensures
      var w' := After(w, events);
      if TouchedAt(w, events, key, deadline) then Frozen(w', key, deadline) else Ticking(w', key, deadline)
    decreases |events|
  {
    if events != [] {
      var e := events[0];
      StepOfTicking(w, e, key, deadline);
      if (e.Lookup? || e.Stats?) && e.key == key && w.now == deadline {
        FrozenForEver(Step(w, e), events[1..], key, deadline);
      } else {
        RunOfTicking(Step(w, e), events[1..], key, deadline);
      }
    }
  }

  /**
   * Past its deadline an entry is never found, and an add replaces its data if and only if nobody touched
   * it at the very second of the deadline: that touch stores it with a time to live of zero.
   */
  lemma ReplaceableIffUntouched(w: World, events: seq<Event>, key: Key, deadline: nat, data: string, ttl: nat)
    requires Ticking(w, key, deadline) && forall i :: 0 <= i < |events| ==> LeavesAlone(events[i], key)
    requires After(w, events).now > deadline
    ensures
      var w' := After(w, events);
      var (store, pass) := AddIfNotExists(w'.cfg, w'.store, w'.now, key, data, ttl, true);
      && Find(w'.cfg, w'.store, w'.now, key, true).1 == None && pass
      && if TouchedAt(w, events, key, deadline) then store == w'.store && Frozen(w', key, deadline)
         else key in store && store[key].record == Record(data, w'.now + ttl, 0, 0)
  {
    RunOfTicking(w, events, key, deadline);
  }
}
