/** Good runs that end badly: a stale answer, and a key that cannot be cached any more. */
module Witnesses {
  import opened Wrappers
  import opened SmartStrHeap
  import opened StdHandler
  import opened Connection
  import opened Run
  import opened LoanSafety
  import opened LoanRuns
  import opened Refinement
  import opened CacheRuns
  import opened StaleReplay

  const CONFIG := Config(false, false)

  /** A query is recorded, stored, and found in the cache. */
  const HIT: seq<Event> := [
    Connect(0), On(0, Send(SELECT, true)), On(0, Receive(1, Some(ANSWER))), On(0, Store(INI, RESULT)),
    On(0, Send(SELECT, true))]

  lemma Extend(w: World, events: seq<Event>, e: Event)
    requires GoodRun(w, events) && Permitted(After(w, events), e) && Forward(After(w, events), e)
    ensures GoodRun(w, events + [e]) && After(w, events + [e]) == Step(After(w, events), e)
  {
    assert (events + [e])[..|events|] == events;
  }

  function Connected(now: nat): World {
    Start(CONFIG, now).(conns := map[0 := NEW_CONN])
  }

  lemma ConnectedRun(now: nat)
    ensures GoodRun(Start(CONFIG, now), HIT[..1]) && After(Start(CONFIG, now), HIT[..1]) == Connected(now)
  {
    assert HIT[..1] == [] + [HIT[0]];
    Extend(Start(CONFIG, now), [], HIT[0]);
  }

  lemma StoredRun(now: nat)
    ensures GoodRun(Start(CONFIG, now), HIT[..4]) && After(Start(CONFIG, now), HIT[..4]) == Cached(0, Connected(now))
  {
    var start := Start(CONFIG, now);
    ConnectedRun(now);
    assert HIT[..2] == HIT[..1] + [HIT[1]] && HIT[..3] == HIT[..2] + [HIT[2]] && HIT[..4] == HIT[..3] + [HIT[3]];
    MissIsPermitted(now);
    Extend(start, HIT[..1], HIT[1]);
    Extend(start, HIT[..2], HIT[2]);
    Extend(start, HIT[..3], HIT[3]);
  }

  lemma MissIsPermitted(now: nat)
    ensures Permitted(Connected(now), HIT[1])
  {
  }

  lemma StoredHistory(now: nat)
    ensures
      var h := Cached(0, Connected(now)).history;
      h.wire == [Query(0, Some("k")), Data(0, ANSWER)] && h.abandoned == multiset{}
  {
    var w1 := Step(Connected(now), On(0, Send(SELECT, true)));
    assert w1.conns[0].hook == Record && w1.history.wire == [Query(0, Some("k"))];
  }

  /** The cache holds the answer, and connection 0 has done `loans` hits of which nothing was returned. */
  ghost predicate Holds(w: World, now: nat, hook: Hook, loans: nat) {
    && w.cfg == CONFIG && w.now == now && w.conns.Keys == {0}
    && w.conns[0].hook == hook && w.conns[0].recordedData == (if hook == Replay then Some(0) else None)
    && w.process.table == map["k" := Entry(0, now + 30, false, loans)] && w.process.heap == EMPTY_HEAP.Alloc(ANSWER)
    && w.history.wire == [Query(0, Some("k")), Data(0, ANSWER)]
  }

  lemma HitStep(w: World, now: nat)
    requires Holds(w, now, Original, 0)
    ensures
      var w' := Step(w, HIT[4]);
      && Permitted(w, HIT[4]) && Holds(w', now, Replay, 1)
      && w'.conns[0].position == 0 && w'.history.abandoned == w.history.abandoned
  {
    var w' := Step(w, HIT[4]);
    assert Found(w, "k") == Some(0);
    assert w'.conns.Keys == {0};
  }

  lemma StoredHolds(now: nat)
    ensures
      var w := After(Start(CONFIG, now), HIT[..4]);
      GoodRun(Start(CONFIG, now), HIT[..4]) && Holds(w, now, Original, 0) && w.history.abandoned == multiset{}
  {
    StoredRun(now);
    StoredHistory(now);
    CachedFacts(Connected(now), 0);
  }

  lemma HitRun(now: nat)
    ensures
      var w := After(Start(CONFIG, now), HIT);
      && GoodRun(Start(CONFIG, now), HIT) && Holds(w, now, Replay, 1)
      && w.conns[0].position == 0 && w.history.abandoned == multiset{}
  {
    StoredHolds(now);
    assert HIT == HIT[..4] + [HIT[4]];
    HitStep(After(Start(CONFIG, now), HIT[..4]), now);
    Extend(Start(CONFIG, now), HIT[..4], HIT[4]);
  }

  /** A statement that is no SELECT, and there are no cache conditions. */
  const UPDATE := Request(false, false, None, 0)

  /** The statement is sent while the connection replays: the server never sees it, and its answer is the cached one. */
  lemma StatementAnsweredFromTheCache(now: nat)
    ensures
      var events := HIT + [On(0, Send(UPDATE, true))];
      var w := After(Start(CONFIG, now), events);
      && GoodRun(Start(CONFIG, now), events)
      && 0 in w.conns && w.conns[0].hook == Replay && w.history.asked[0] == None
      && w.history.wire == [Query(0, Some("k")), Data(0, ANSWER)]
      && ReceiveData(w.process, w.conns[0], 1, None).2 == Some(ANSWER)
  {
    HitRun(now);
    var w := After(Start(CONFIG, now), HIT);
    PastTheCacheReplaysOn(w, 0, UPDATE, 1, None, INI, RESULT);
    ReadsAnswer(w, now);
    Extend(Start(CONFIG, now), HIT, On(0, Send(UPDATE, true)));
  }

  lemma ReadsAnswer(w: World, now: nat)
    requires Holds(w, now, Replay, 1) && w.conns[0].position == 0
    ensures ReceiveData(w.process, w.conns[0], 1, None).2 == Some(ANSWER)
  {
    assert ANSWER[0..1] == ANSWER;
  }

  /** The result is used unbuffered: the loan is abandoned, and time passes. */
  const ABANDON: seq<Event> := HIT + [On(0, Use(true))]

  lemma UseStep(w: World, now: nat)
    requires Holds(w, now, Replay, 1) && w.history.abandoned == multiset{}
    ensures
      var w' := Step(w, On(0, Use(true)));
      Holds(w', now, Original, 1) && w'.history.abandoned == multiset{0}
  {
    assert Step(w, On(0, Use(true))).conns.Keys == {0};
  }

  /** After the deadline nobody replays, and yet nothing is found under the key and nothing can be added. */
  lemma AbandonedLoanBlocksKey(now: nat)
    ensures
      var events := ABANDON + [Tick(now + 31)];
      var w := After(Start(CONFIG, now), events);
      && GoodRun(Start(CONFIG, now), events)
      && Pinned(w, "k", Entry(0, now + 30, false, 1)) && w.process.table["k"].deadline < w.now
      && (forall id :: id in w.conns ==> w.conns[id].hook == Original)
      && Found(w, "k") == None && !CanAdd(w.cfg, w.now, w.process, "k")
  {
    HitRun(now);
    UseStep(After(Start(CONFIG, now), HIT), now);
    Extend(Start(CONFIG, now), HIT, On(0, Use(true)));
    Extend(Start(CONFIG, now), ABANDON, Tick(now + 31));
  }
}
