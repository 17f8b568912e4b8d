/**
 * The simple machine the cache is compared with: an append-only log of what was added, asked
 * for and cleared, with no eviction, no buffers and no counters. And what a server sent to a
 * connection in answer to its latest query, read off the wire.
 */
module CacheLog {
  import opened Wrappers
  import opened SmartStrHeap
  import opened StdHandler
  import opened Run

  /** The last add for the key since the last clear. */
  function Latest(log: seq<LogItem>, key: Key): Option<nat>
    ensures var r := Latest(log, key); r.Some? ==> r.value < |log| && log[r.value].Added? && log[r.value].key == key
    decreases |log|
  {
    if log == [] then None
    else
      var last := |log| - 1;
      if log[last].Cleared? then None
      else if log[last].Added? && log[last].key == key then Some(last)
      else Latest(log[..last], key)
  }

  /** Whether someone asked for the key since its last add. */
  function AskedSince(log: seq<LogItem>, key: Key): bool
    decreases |log|
  {
    if log == [] then false
    else
      var last := |log| - 1;
      if log[last].Cleared? || (log[last].Added? && log[last].key == key) then false
      else if log[last].Asked? && log[last].key == key then Latest(log[..last], key).Some?
      else AskedSince(log[..last], key)
  }

  function Deadline(item: LogItem): nat
    requires item.Added?
  {
    item.addedAt + item.ttl
  }

  /**
   * What the log machine answers to a lookup: with slam defence the first one after an add is
   * sent away to refresh and all later ones get the data, otherwise all get it until the deadline.
   */
  function Predicted(cfg: Config, log: seq<LogItem>, now: nat, key: Key): Option<Bytes> {
    match Latest(log, key)
    case None => None
    case Some(j) =>
      if (if cfg.slamDefense then AskedSince(log, key) else now < Deadline(log[j])) then Some(log[j].bytes) else None
  }

  lemma LatestAfter(log: seq<LogItem>, item: LogItem, key: Key)
    ensures Latest(log + [item], key) ==
            if item.Cleared? then None else if item.Added? && item.key == key then Some(|log|) else Latest(log, key)
    ensures AskedSince(log + [item], key) ==
            if item.Cleared? || (item.Added? && item.key == key) then false
            else if item.Asked? && item.key == key then Latest(log, key).Some?
            else AskedSince(log, key)
  {
    assert (log + [item])[..|log|] == log;
  }

  // ---- the wire ----

  /** The key of the connection's latest query. */
  function QueryKey(wire: seq<WireEvent>, id: ConnId): Option<Key>
    decreases |wire|
  {
    if wire == [] then None
    else
      var last := |wire| - 1;
      if wire[last].Query? && wire[last].id == id then wire[last].key else QueryKey(wire[..last], id)
  }

  /** All the server sent to the connection since its latest query. */
  function Answer(wire: seq<WireEvent>, id: ConnId): Bytes
    decreases |wire|
  {
    if wire == [] then []
    else
      var last := |wire| - 1;
      if wire[last].id != id then Answer(wire[..last], id)
      else if wire[last].Query? then []
      else Answer(wire[..last], id) + wire[last].bytes
  }

  lemma AnswerAfter(wire: seq<WireEvent>, event: WireEvent, id: ConnId)
    ensures QueryKey(wire + [event], id) == if event.Query? && event.id == id then event.key else QueryKey(wire, id)
    ensures Answer(wire + [event], id) ==
            if event.id != id then Answer(wire, id)
            else if event.Query? then [] else Answer(wire, id) + event.bytes
  {
    assert (wire + [event])[..|wire|] == wire;
  }

  /** The added bytes are the full answer of a server to a query with that key, at the time of the add. */
  predicate Genuine(wire: seq<WireEvent>, item: LogItem)
    requires item.Added?
  {
    && item.wireLength <= |wire|
    && QueryKey(wire[..item.wireLength], item.id) == Some(item.key)
    && Answer(wire[..item.wireLength], item.id) == item.bytes
  }
}
