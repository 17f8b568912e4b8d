/** The cache and the key together: what a replayed answer answers. */
module EndToEnd {
  import opened Wrappers
  import opened Text
  import opened Lexer
  import opened Strip
  import opened StripCanonical
  import opened StripMeaning
  import opened HashKey
  import opened StdHandler
  import opened Connection
  import opened Run
  import opened CacheLog
  import opened CacheRuns

  /** The recorded answer was sent to a query over the same kind of connection, with the same stripped text. */
  ghost predicate AnswersTheQuery(w: World, id: ConnId, item: LogItem, context: Context, query: string)
    requires item.Added? && id in w.history.replayed && Separable(context)
  {
    var h := w.history;
    && item.wireLength <= |h.wire|
    && h.replayed[id] <= Answer(h.wire[..item.wireLength], item.id)
    && QueryKey(h.wire[..item.wireLength], item.id).Some?
    && forall context': Context, query': string ::
         Separable(context') && GetHashKey(context', None, query') == QueryKey(h.wire[..item.wireLength], item.id)
         ==> SameContext(context, context') && KeyText(query) == KeyText(query')
  }

  /**
   * In a good run, a connection that sent `query` last, not past the cache, and replays is given the
   * beginning of what a server answered, over the same host, port, charset, user and database, to a query
   * with the same stripped text. StaleReplay is about the queries that do go past the cache.
   */
  lemma ReplayAnswersTheQuery(
    cfg: Config, now: nat, events: seq<Event>, id: ConnId, context: Context, query: string)
    requires GoodRun(Start(cfg, now), events) && Separable(context)
    requires id in After(Start(cfg, now), events).conns && After(Start(cfg, now), events).conns[id].hook == Replay
    requires id in After(Start(cfg, now), events).history.asked
    requires After(Start(cfg, now), events).history.asked[id] == GetHashKey(context, None, query)
    ensures
      var w := After(Start(cfg, now), events);
      id in w.history.replayed
      && exists j: nat :: j < |w.history.log| && w.history.log[j].Added?
                          && AnswersTheQuery(w, id, w.history.log[j], context, query)
  {
    ReplayIsTransparent(cfg, now, events, id);
    var w := After(Start(cfg, now), events);
    var h := w.history;
    var j: nat :| j < |h.log| && h.log[j].Added? && h.asked[id] == Some(h.log[j].key)
                  && h.log[j].wireLength <= |h.wire|
                  && QueryKey(h.wire[..h.log[j].wireLength], h.log[j].id) == Some(h.log[j].key)
                  && h.replayed[id] <= Answer(h.wire[..h.log[j].wireLength], h.log[j].id);
    forall context': Context, query': string
      | Separable(context') && GetHashKey(context', None, query') == Some(h.log[j].key)
      ensures SameContext(context, context') && KeyText(query) == KeyText(query')
    {
      KeysSeparateContexts(context, query, context', query');
    }
    assert AnswersTheQuery(w, id, h.log[j], context, query);
  }

  // ---- what sharing a key means for the queries ----

  lemma {:induction false} FixedHasNoNul(last: Option<char>, s: string)
    requires Free('\0', s)
    ensures Free('\0', Fixed(last, s))
    decreases |s|
  {
    var t := SkipBlanks(s);
    if t != "" {
      FixedIs(last, s);
      FixedHasNoNul(Some(t[0]), t[1..]);
    }
  }

  lemma PlainHasNoNul(s: string)
    requires Plain(s)
    ensures Free('\0', s)
  {
    forall i | 0 <= i < |s| ensures s[i] != '\0' {
      assert PlainChar(s[i]);
    }
  }

  lemma KeyTextOfPlain(query: string)
    requires Plain(query) && CommentFree(query)
    ensures KeyText(query) == StripQuery(query)
  {
    StripIsDraw(None, query);
    PlainHasNoNul(query);
    FixedHasNoNul(None, query);
    PlainCString(StripQuery(query));
  }

  /**
   * Plain queries without split operators that share a key were asked in the same context, and the
   * tokenizer reads the same tokens off both, up to the empty identifier of trailing blanks.
   */
  lemma SharersMeanTheSame(keywords: Keywords, a: Context, query: string, b: Context, query': string)
    requires Named(keywords) && Separable(a) && Separable(b)
    requires Plain(query) && CommentFree(query) && !HasMerge(query)
    requires Plain(query') && CommentFree(query') && !HasMerge(query')
    requires GetHashKey(a, None, query) == GetHashKey(b, None, query')
    ensures SameContext(a, b)
    ensures exists tokens ::
              && Tokens(keywords, query) == tokens + Trailing(query)
              && Tokens(keywords, query') == tokens + Trailing(query')
  {
    KeysSeparateContexts(a, query, b, query');
    KeyTextOfPlain(query);
    KeyTextOfPlain(query');
    StripMeansTheSame(keywords, query);
    StripMeansTheSame(keywords, query');
  }
}
