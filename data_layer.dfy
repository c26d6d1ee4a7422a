/** The consistency coordinator: read-through `getValue`, write-through
    `setValue` with a broadcast on the invalidation channel, and the
    subscriber step that erases announced keys from the local cache.

    The backing store (a Redis server in the source) is an abstract object:
    a key-value map, the log of messages published on it, and the log of
    requests this process sent it, one pipelined batch of commands per
    request. Failures of the store are an explicit `Fault` parameter. */
module DataLayer {
  import opened Wrappers
  import opened Cache

  /** Connection settings and the invalidation channel name. */
  datatype RedisConfig = RedisConfig(host: string, port: string, channel: string)

  /** The settings used unless the environment overrides the host or the
      port; the channel is never overridden. */
  const DefaultRedisConfig := RedisConfig("127.0.0.1", "6379", "kv_updates")

  /** A command sent to the backing store. */
  datatype Command =
    | Get(key: string)
    | Set(key: string, value: string)
    | Publish(channel: string, message: string)

  /** A message broadcast on a channel. */
  datatype Message = Message(channel: string, payload: string)

  /** How the store answers one request.
      - `Healthy`: normally.
      - `ErrorReply`: with an error reply to the command whose result the
        caller reads (the GET of a read, the PUBLISH of a write); the client
        hands the error over as the result.
      - `SetRefused`: with an error reply to the SET of a write (out of
        memory, a read-only replica); the client reports an error reply to a
        command whose result is ignored as a failed exchange, so the awaiting
        coroutine throws, while the PUBLISH that follows still runs. A read
        carries no SET and is answered normally.
      - `Disconnected`: not at all; the connection is lost and the awaiting
        coroutine throws. */
  datatype Fault = Healthy | ErrorReply | SetRefused | Disconnected

  /** One reply of the store: a value, an error reply handed over as the
      result, or a failed exchange (the awaiting coroutine throws). */
  datatype Reply<+T> = Value(v: T) | ErrorResult | Failed

  /** The reply to `GET key`: the bulk string, nil when the key is unset. */
  function GetReplyFor(entries: map<string, string>, key: string, fault: Fault): (reply: Reply<Option<string>>)
    ensures reply.Value? <==> fault == Healthy || fault == SetRefused
    ensures reply == Value(None) <==> (fault == Healthy || fault == SetRefused) && key !in entries
    ensures reply.Value? && reply.v.Some? ==> key in entries && reply.v.value == entries[key]
    ensures reply.ErrorResult? <==> fault == ErrorReply
    ensures reply.Failed? <==> fault == Disconnected
  {
    match fault
    case Healthy | SetRefused => Value(if key in entries then Some(entries[key]) else None)
    case ErrorReply => ErrorResult
    case Disconnected => Failed
  }

  /** The abstract backing store shared by every instance of the service. */
  class Store {
    var entries: map<string, string>
    var published: seq<Message>
    var requests: seq<seq<Command>>

    constructor (initial: map<string, string>)
      ensures entries == initial && published == [] && requests == []
    {
      entries := initial;
      published := [];
      requests := [];
    }

    /** Executes the one-command request `GET key`. */
    method ExecGet(key: string, fault: Fault) returns (reply: Reply<Option<string>>)
      modifies this
      ensures reply == GetReplyFor(old(entries), key, fault)
      ensures requests == old(requests) + [[Get(key)]]
      ensures entries == old(entries) && published == old(published)
    {
      requests := requests + [[Get(key)]];
      reply := GetReplyFor(entries, key, fault);
    }

    /** Executes the two-command request `SET key value; PUBLISH channel key`.
        The SET takes effect unless it is refused or the connection is lost;
        the PUBLISH takes effect unless it gets an error reply or the
        connection is lost. The reply is that of the PUBLISH, except that a
        refused SET fails the whole exchange. */
    method ExecSetPublish(key: string, value: string, channel: string, fault: Fault) returns (reply: Reply<()>)
      modifies this
      ensures requests == old(requests) + [[Set(key, value), Publish(channel, key)]]
      ensures fault == Disconnected ==> reply == Failed && entries == old(entries) && published == old(published)
      ensures fault == SetRefused ==>
        reply == Failed && entries == old(entries) && published == old(published) + [Message(channel, key)]
      ensures fault == ErrorReply ==>
        reply == ErrorResult && entries == Upserted(old(entries), key, value) && published == old(published)
      ensures fault == Healthy ==>
        reply == Value(()) && entries == Upserted(old(entries), key, value)
        && published == old(published) + [Message(channel, key)]
    {
      requests := requests + [[Set(key, value), Publish(channel, key)]];
      match fault
      case Disconnected =>
        reply := Failed;
      case SetRefused =>
        published := published + [Message(channel, key)];
        reply := Failed;
      case ErrorReply =>
        entries := entries[key := value];
        reply := ErrorResult;
      case Healthy =>
        entries := entries[key := value];
        published := published + [Message(channel, key)];
        reply := Value(());
    }
  }

  /** What `getValue` returns, given the cache before the call, the store and
      the fault: the cached value on a hit, otherwise the store's answer,
      with an error reply and a nil reply both read as "not found", and a
      lost connection as an exception. */
  function ReadThrough(cached: map<string, string>, stored: map<string, string>, key: string, fault: Fault): (r: Outcome<Option<string>>)
    ensures key in cached ==> r == Done(Some(cached[key]))
    ensures key !in cached ==> (r == Threw <==> fault == Disconnected)
    ensures key !in cached && (fault == Healthy || fault == SetRefused) ==>
      r == Done(if key in stored then Some(stored[key]) else None)
    ensures key !in cached && fault == ErrorReply ==> r == Done(None)
  {
    if key in cached then Done(Some(cached[key]))
    else
      match GetReplyFor(stored, key, fault)
      case Value(v) => Done(v)
      case ErrorResult => Done(None)
      case Failed => Threw
  }

  /** The cache after the double-checked fill of a fetched value: the value
      is stored only when no entry for `key` appeared while the fetch was in
      flight, and nothing else changes. */
  function FillAfterFetch(current: map<string, string>, key: string, fetched: string): (r: map<string, string>)
    ensures key in r
    ensures r.Keys == current.Keys + {key}
    ensures forall k :: k in current ==> r[k] == current[k]
    ensures key !in current ==> r[key] == fetched
  {
    if key in current then current else Upserted(current, key, fetched)
  }

  /** Node `i` of a push frame starts a message whose payload, two nodes
      later, is a non-empty key. */
  predicate Announces(nodes: seq<string>, i: int)
  {
    0 <= i && i + 2 < |nodes| && nodes[i] == "message" && nodes[i + 2] != ""
  }

  /** The keys announced at positions below `n` of a push frame. */
  function AnnouncedBefore(nodes: seq<string>, n: int): set<string>
  {
    set i | 0 <= i < n && Announces(nodes, i) :: nodes[i + 2]
  }

  /** The keys one push frame invalidates: every non-empty node two places
      after a node "message". Only nodes of the frame, never the empty key,
      and nothing at all for a frame of fewer than three nodes. */
  function InvalidatedKeys(nodes: seq<string>): (keys: set<string>)
    ensures "" !in keys
    ensures forall k :: k in keys ==> k in nodes
    ensures |nodes| < 3 ==> keys == {}
  {
    AnnouncedBefore(nodes, |nodes|)
  }

  /** An announced key is among the keys the frame invalidates. */
  lemma AnnouncedIsInvalidated(nodes: seq<string>, i: int)
    requires Announces(nodes, i)
    ensures nodes[i + 2] in InvalidatedKeys(nodes)
  {
    assert 0 <= i < |nodes| && Announces(nodes, i);
  }

  /** The nodes of a published message as the subscriber scans them. The
      client's flattened frame also starts with the node of the push
      aggregate itself, whose value is empty; `PushFrameInvalidates` shows
      that this node changes nothing. */
  function FrameOf(m: Message): seq<string>
  {
    ["message", m.channel, m.payload]
  }

  /** A message frame invalidates exactly its payload, unless the payload
      is the empty key, which is never invalidated. */
  lemma {:induction false} MessageFrameInvalidates(m: Message)
    ensures InvalidatedKeys(FrameOf(m)) == if m.payload == "" then {} else {m.payload}
  {
    var nodes := FrameOf(m);
    if m.payload != "" {
      AnnouncedIsInvalidated(nodes, 0);
    }
    forall k | k in InvalidatedKeys(nodes)
      ensures k == m.payload
    {
      var i :| 0 <= i < |nodes| && Announces(nodes, i) && nodes[i + 2] == k;
      assert i == 0;
    }
  }

  /** The frame as the client flattens it, with the empty node of the push
      aggregate first, invalidates the same keys as the message's own
      nodes. */
  lemma PushFrameInvalidates(m: Message)
    ensures InvalidatedKeys([""] + FrameOf(m)) == InvalidatedKeys(FrameOf(m))
  {
    var nodes := FrameOf(m);
    var push := [""] + nodes;
    MessageFrameInvalidates(m);
    if m.payload != "" {
      AnnouncedIsInvalidated(push, 1);
    }
    forall k | k in InvalidatedKeys(push)
      ensures k == m.payload
    {
      var i :| 0 <= i < |push| && Announces(push, i) && push[i + 2] == k;
      assert i == 1;
    }
  }

  /** The coordinator: the cache it shares with the rest of the process, its
      backing-store connection (the abstract `store`) and its settings. */
  class DataLayer {
    const cache: LocalCache
    const store: Store
    const cfg: RedisConfig

    constructor (cache: LocalCache, cfg: RedisConfig, store: Store)
      ensures this.cache == cache && this.cfg == cfg && this.store == store
    {
      this.cache := cache;
      this.cfg := cfg;
      this.store := store;
    }

    /** `getValue`: read-through lookup. `concurrent` is what the cache holds
        when the coroutine resumes after its GET, since other requests and
        the subscriber run while it is suspended. */
    method GetValue(key: string, fault: Fault, concurrent: map<string, string>) returns (r: Outcome<Option<string>>)
      modifies cache, store
      ensures r == ReadThrough(old(cache.entries), old(store.entries), key, fault)
      ensures store.entries == old(store.entries) && store.published == old(store.published)
      ensures key in old(cache.entries) ==>
        cache.entries == old(cache.entries) && store.requests == old(store.requests)
      ensures key !in old(cache.entries) ==>
        store.requests == old(store.requests) + [[Get(key)]]
        && cache.entries == (if r.Done? && r.value.Some? then FillAfterFetch(concurrent, key, r.value.value) else concurrent)
    {
      var hit := cache.TryGet(key);
      if hit.Some? {
        return Done(hit);
      }
      var reply := store.ExecGet(key, fault);
      // the suspension point: the cache may have changed in any way
      cache.entries := concurrent;
      match reply {
        case Failed =>
          r := Threw;
        case ErrorResult =>
          r := Done(None);
        case Value(None) =>
          r := Done(None);
        case Value(Some(v)) =>
          var again := cache.TryGet(key);
          if again.None? {
            cache.Upsert(key, v);
          }
          r := Done(Some(v));
      }
    }

    /** `setValue`: one request SET then PUBLISH on the configured channel,
        then an unconditional upsert of the local cache, whatever the reply
        to the PUBLISH was. A refused SET or a lost connection throws before
        the upsert; a refused SET is still announced on the channel. */
    method SetValue(key: string, value: string, fault: Fault) returns (r: Outcome<()>)
      modifies cache, store
      ensures store.requests == old(store.requests) + [[Set(key, value), Publish(cfg.channel, key)]]
      ensures r == Threw <==> fault == SetRefused || fault == Disconnected
      ensures r == Threw ==> cache.entries == old(cache.entries) && store.entries == old(store.entries)
      ensures r.Done? ==>
        r.value == () && cache.entries == Upserted(old(cache.entries), key, value)
        && store.entries == Upserted(old(store.entries), key, value)
      ensures store.published ==
        old(store.published) + (if fault == Healthy || fault == SetRefused then [Message(cfg.channel, key)] else [])
    {
      var reply := store.ExecSetPublish(key, value, cfg.channel, fault);
      if reply.Failed? {
        return Threw;
      }
      cache.Upsert(key, value);
      r := Done(());
    }

    /** One iteration of the subscriber loop: scan the nodes of one push
        frame and erase every announced key from the cache. */
    method ProcessFrame(nodes: seq<string>)
      modifies cache
      ensures cache.entries == old(cache.entries) - InvalidatedKeys(nodes)
    {
      var i := 0;
      while i + 2 < |nodes|
        invariant 0 <= i <= |nodes|
        invariant cache.entries == old(cache.entries) - AnnouncedBefore(nodes, i)
        decreases |nodes| - i
      {
        if nodes[i] == "message" {
          var key := nodes[i + 2];
          if key != "" {
            cache.Erase(key);
          }
        }
        assert AnnouncedBefore(nodes, i + 1)
          == AnnouncedBefore(nodes, i) + (if Announces(nodes, i) then {nodes[i + 2]} else {});
        i := i + 1;
      }
      assert AnnouncedBefore(nodes, i) == InvalidatedKeys(nodes);
    }
  }

  /** A hit is answered from the cache whatever the store holds and however
      it would have answered. */
  lemma HitIgnoresStore(cached: map<string, string>, s1: map<string, string>, s2: map<string, string>,
                        key: string, f1: Fault, f2: Fault)
    requires key in cached
    ensures ReadThrough(cached, s1, key, f1) == ReadThrough(cached, s2, key, f2)
  {
  }

  /** On a miss, an error reply cannot be told apart from a key that the
      store does not hold: both read as "not found". */
  lemma ErrorReadsAsNotFound(cached: map<string, string>, stored: map<string, string>, key: string)
    requires key !in cached
    ensures ReadThrough(cached, stored, key, ErrorReply) == ReadThrough(cached, stored - {key}, key, Healthy)
  {
  }

  /** The double check: when an entry for `key` appeared while the fetch was
      in flight, it is kept, even though the fetched value is what the
      caller receives. */
  lemma DoubleCheckKeepsNewer(current: map<string, string>, key: string, fetched: string)
    requires key in current
    ensures FillAfterFetch(current, key, fetched) == current
  {
  }

  /** The writer's own broadcast evicts what the writer just cached, for every
      key but the empty one. */
  lemma OwnBroadcastEvicts(m: map<string, string>, channel: string, key: string, value: string)
    ensures key != "" ==> key !in Upserted(m, key, value) - InvalidatedKeys(FrameOf(Message(channel, key)))
    ensures key == "" ==> (Upserted(m, key, value) - InvalidatedKeys(FrameOf(Message(channel, key))))[key] == value
  {
    MessageFrameInvalidates(Message(channel, key));
  }

  /** Write, delivery of the writer's own message, then read: the write is
      published on the channel the subscriber listens to, its frame evicts
      the key that `setValue` had just cached, and the next read goes back
      to the store and re-caches the written value. */
  method OwnWriteIsRefetched(d: DataLayer, key: string, value: string) returns (r: Outcome<Option<string>>)
    requires key != ""
    modifies d.cache, d.store
    ensures r == Done(Some(value))
    ensures d.store.requests ==
      old(d.store.requests) + [[Set(key, value), Publish(d.cfg.channel, key)], [Get(key)]]
    ensures d.cache.entries == Upserted(old(d.cache.entries), key, value)
  {
    var w := d.SetValue(key, value, Healthy);
    var m := d.store.published[|d.store.published| - 1];
    assert m == Message(d.cfg.channel, key);
    d.ProcessFrame(FrameOf(m));
    MessageFrameInvalidates(m);
    assert key !in d.cache.entries;
    r := d.GetValue(key, Healthy, d.cache.entries);
  }

  /** A write whose SET the store refuses: the caller gets an exception,
      yet the key is still announced, so the writer's own frame evicts its
      cached entry and the next read fetches the value the store kept. */
  method RefusedWriteIsNotServed(d: DataLayer, key: string, value: string) returns (w: Outcome<()>, r: Outcome<Option<string>>)
    requires key != ""
    modifies d.cache, d.store
    ensures w == Threw
    ensures r == Done(if key in old(d.store.entries) then Some(old(d.store.entries)[key]) else None)
    ensures d.store.entries == old(d.store.entries)
    ensures d.store.requests ==
      old(d.store.requests) + [[Set(key, value), Publish(d.cfg.channel, key)], [Get(key)]]
  {
    w := d.SetValue(key, value, SetRefused);
    var m := d.store.published[|d.store.published| - 1];
    assert m == Message(d.cfg.channel, key);
    d.ProcessFrame(FrameOf(m));
    MessageFrameInvalidates(m);
    assert key !in d.cache.entries;
    r := d.GetValue(key, Healthy, d.cache.entries);
  }

  /** Two reads of a key, with nothing else happening in between: a key the
      store holds is fetched once and then served from the cache; a key it
      does not hold is never cached, so every read asks the store. */
  method ReadTwice(d: DataLayer, key: string) returns (r1: Outcome<Option<string>>, r2: Outcome<Option<string>>)
    modifies d.cache, d.store
    ensures r1 == r2 == ReadThrough(old(d.cache.entries), old(d.store.entries), key, Healthy)
    ensures key in old(d.cache.entries) ==> d.store.requests == old(d.store.requests)
    ensures key !in old(d.cache.entries) && key in old(d.store.entries) ==>
      d.store.requests == old(d.store.requests) + [[Get(key)]]
    ensures key !in old(d.cache.entries) && key !in old(d.store.entries) ==>
      d.store.requests == old(d.store.requests) + [[Get(key)], [Get(key)]]
  {
    r1 := d.GetValue(key, Healthy, d.cache.entries);
    r2 := d.GetValue(key, Healthy, d.cache.entries);
  }
}
