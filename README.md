# kvstore: a Dafny model of the cache-consistency path

The service is a caching HTTP gateway in front of a shared Redis store. Each
instance keeps a private in-memory cache. Reads go through the cache and fall
back to the store. Writes go to the store and are broadcast on an
invalidation channel. A subscriber task erases announced keys from the cache.

The model runs sequentially. Redis is replaced by an abstract `Store` object
that holds a key-value map, the log of messages published on it, and the log
of requests this process sent it (one pipelined batch of commands per
request). A store failure is an explicit parameter,
`Fault = Healthy | ErrorReply | SetRefused | Disconnected`:
- An error reply to the command whose result the caller reads (the GET of a
  read, the PUBLISH of a write) reaches the caller as a reply value.
- An error reply to the SET of a write (out of memory, a read-only replica)
  fails the whole exchange, because the client library does not hand over
  errors for a result the caller ignores. The PUBLISH after it still runs.
  A read is answered normally under this fault.
- A lost connection applies nothing.
A failed exchange makes the awaiting coroutine throw, which is modelled as
`Outcome.Threw`.

Keys, values and request bodies are byte strings: each `char` of a Dafny
`string` stands for one byte. So a body's length is its Content-Length, and
the SHA-1 digest is taken over those bytes.

- `cache.dfy`, module `Cache`: `LocalCache` is a class whose `entries` map
  the methods update in place. The functions `Upserted` and `Erased` specify
  the methods, and lemmas give idempotence and overwrite laws.
- `data_layer.dfy`, module `DataLayer`: `DataLayer` is the coordinator.
  - `GetValue` is the read-through read. Its `concurrent` argument is the
    cache as it stands when the coroutine resumes after its GET. This lets
    the double check before the fill be stated.
  - `SetValue` sends SET and PUBLISH in one request, then upserts the cache.
  - `ProcessFrame` is one iteration of the subscriber loop over the nodes of
    one push frame.
- `http_handlers.dfy`, module `HttpHandlers`:
  - the strong ETag: the SHA-1 digest in lower-case hexadecimal, quoted. The
    digest function is a parameter `sha1: string -> Digest`.
  - the GET decision (404, 304 or 200) and the POST decision (403 or 200).
  - the two handler methods, which call the coordinator.
- `server.dfy`, module `Server`:
  - request routing and one pass of the session loop, including the mapping
    of an exception to 500.
  - the start-up decision: the API key is required, and the port is chosen
    from `PORT`, `argv[1]` or 8001, then truncated to 16 bits.

Behaviour worth knowing, all stated as lemmas:
- A write to the empty key (`POST /kv/`) is published, but the subscriber
  skips empty payloads. So the empty key is never invalidated, on any
  instance (`OwnBroadcastEvicts`, `MessageFrameInvalidates`).
- A key the store does not hold is never cached, so every read of it asks
  the store again (`ReadTwice`).
- An error reply to GET reads as "not found", the same as an absent key
  (`ErrorReadsAsNotFound`).
- A write whose SET the store refuses ends in 500, yet its key is still
  announced. Every instance drops its cached entry, and the store keeps the
  old value (`RefusedWriteIsNotServed`).
- `If-None-Match: *`, weak tags and tag lists never produce 304
  (`OnlyAnExactTagMatches`).

Where the documented design and the code differ, the model follows the
code:
- The subscriber does not erase "the key of every message". It erases every
  non-empty node two places after any node equal to `message`, at any
  position in the frame, and it does not look at the channel name.
- The conditional GET also requires the header to be non-empty. This makes
  no difference, because a tag is never empty.

## Model

| member | source | states |
|---|---|---|
| `Cache.Upserted` | src/cache.hpp:16-19 | the key is bound to the new value, every other binding is kept, and the key set only grows by the key |
| `Cache.Erased` | src/cache.hpp:21-24 | the key is unbound, no other key is removed and no value changes |
| `Cache.EraseAbsentIsNoOp` | src/cache.hpp:21-24 | erasing an absent key leaves the map unchanged |
| `Cache.EraseIdempotent` | src/cache.hpp:21-24 | erasing twice equals erasing once |
| `Cache.UpsertIdempotent` | src/cache.hpp:16-19 | two identical upserts equal one |
| `Cache.UpsertOverwrites` | src/cache.hpp:16-19 | of two upserts of one key, the last wins |
| `Cache.EraseAfterUpsert` | src/cache.hpp:16-24 | an erase right after an upsert of the same key forgets the upsert |
| `Cache.LocalCache.constructor` | src/cache.hpp:28 | a new cache is empty |
| `Cache.LocalCache.TryGet` | src/cache.hpp:9-14 | returns a value exactly when the key is mapped, and then the mapped value; changes nothing |
| `Cache.LocalCache.Upsert` | src/cache.hpp:16-19 | the new map is the old one with the key bound to the value |
| `Cache.LocalCache.Erase` | src/cache.hpp:21-24 | the new map is the old one without the key |
| `DataLayer.GetReplyFor` | src/data_layer.cpp:27-36 | a GET that is answered normally replies with the stored value, or nil exactly when the key is unset; an error reply is handed over as such; a lost connection fails the exchange |
| `DataLayer.Store.ExecGet` | src/data_layer.cpp:27-31 | a GET request is logged and changes neither the store's map nor its published messages |
| `DataLayer.Store.ExecSetPublish` | src/data_layer.cpp:43-48 | SET then PUBLISH go out as one request; SET applies unless it is refused or the connection is lost; the message is published unless the PUBLISH gets an error reply or the connection is lost; a refused SET or a lost connection fails the exchange |
| `DataLayer.ReadThrough` | src/data_layer.cpp:24-40 | a hit returns the cached value; a miss returns the store's value, not-found for an unset key or an error reply, and throws on a lost connection |
| `DataLayer.FillAfterFetch` | src/data_layer.cpp:38 | the fetched value is cached only when the key is still absent; all existing entries are kept |
| `DataLayer.InvalidatedKeys` | src/data_layer.cpp:77-86 | a frame invalidates only its own nodes, never the empty key, and nothing when it has fewer than three nodes |
| `DataLayer.AnnouncedIsInvalidated` | src/data_layer.cpp:78-84 | every non-empty node two places after a `message` node is invalidated |
| `DataLayer.MessageFrameInvalidates` | src/data_layer.cpp:78-84 | the frame of a published message invalidates exactly its payload, or nothing when the payload is empty |
| `DataLayer.PushFrameInvalidates` | src/data_layer.cpp:77-86 | the frame as the client flattens it, with the empty aggregate node first, invalidates the same keys |
| `DataLayer.DataLayer.constructor` | src/data_layer.cpp:10-11 | the coordinator keeps the shared cache, its settings and its store connection |
| `DataLayer.DataLayer.GetValue` | src/data_layer.cpp:24-40 | returns `ReadThrough`; a hit sends nothing and changes nothing; a miss sends one GET, and the cache after resumption gains the fetched value only when the key is still absent |
| `DataLayer.DataLayer.SetValue` | src/data_layer.cpp:42-61 | sends SET key value and PUBLISH channel key in one request; throws exactly on a refused SET or a lost connection, and then changes neither the cache nor the store's map; otherwise the store and the cache both bind the key to the value, whatever the publish reply; the message is published exactly when the connection holds and the PUBLISH is not refused |
| `DataLayer.DataLayer.ProcessFrame` | src/data_layer.cpp:72-87 | the cache afterwards is the old cache minus exactly the frame's invalidated keys |
| `DataLayer.HitIgnoresStore` | src/data_layer.cpp:25 | on a hit the result does not depend on the store's contents or health |
| `DataLayer.ErrorReadsAsNotFound` | src/data_layer.cpp:33-36 | on a miss, an error reply gives the same result as a key the store does not hold |
| `DataLayer.DoubleCheckKeepsNewer` | src/data_layer.cpp:38-39 | an entry that appeared while the fetch was in flight is not overwritten |
| `DataLayer.OwnBroadcastEvicts` | src/data_layer.cpp:45 | the writer's own message evicts the key it has just cached, except the empty key, which survives |
| `DataLayer.OwnWriteIsRefetched` | src/data_layer.cpp:42-86 | a write, the delivery of its own message, then a read: the read goes back to the store and returns the written value |
| `DataLayer.RefusedWriteIsNotServed` | src/data_layer.cpp:42-86 | a write whose SET is refused throws, yet its message evicts the writer's entry, so the next read returns the value the store kept |
| `DataLayer.ReadTwice` | src/data_layer.cpp:24-40 | two reads in a row give the same answer; a stored key costs one GET, and an unset key costs a GET each time |
| `HttpHandlers.HexDigit` | src/http_handlers.cpp:11 | a lower-case hexadecimal digit whose value is the argument |
| `HttpHandlers.HexByte` | src/http_handlers.cpp:11 | two lower-case digits whose value is the byte, zero-padded |
| `HttpHandlers.Hex` | src/http_handlers.cpp:10-11 | twice as many characters as bytes, all lower-case hex digits |
| `HttpHandlers.HexAt` | src/http_handlers.cpp:11 | byte j is rendered at positions 2j and 2j+1, high digit first |
| `HttpHandlers.HexRoundTrip` | src/http_handlers.cpp:11 | decoding the hexadecimal text gives back the bytes |
| `HttpHandlers.Etag` | src/http_handlers.cpp:12 | 42 characters: a quote, 40 lower-case hex digits, a quote |
| `HttpHandlers.EtagInjective` | src/http_handlers.cpp:7-13 | two digests have equal tags exactly when they are equal (a strong validator, RFC 9110 section 8.8.3) |
| `HttpHandlers.StrongEtagFor` | src/http_handlers.cpp:7-13 | the loop's output is the tag of the value's digest |
| `HttpHandlers.GetKVResponse` | src/http_handlers.cpp:17-43 | 404 with no fields and an empty body exactly when the value is absent; 304 with the tag and no-cache exactly when If-None-Match equals the tag; otherwise 200 with the value as body, JSON, no-cache and the tag; keep-alive copied |
| `HttpHandlers.MissingKeyMatchesOnlyEmptySecret` | src/http_handlers.cpp:48-49 | without the X-API-Key header, a write is accepted exactly when the configured secret is empty |
| `HttpHandlers.OnlyAnExactTagMatches` | src/http_handlers.cpp:26-27 | an If-None-Match value that is not 42 characters (such as `*`) gives 200 |
| `HttpHandlers.RevalidationMatchesSameDigest` | src/http_handlers.cpp:25-33 | a client holding an earlier value's tag gets 304 exactly when the current value has the same digest |
| `HttpHandlers.PostKVResponse` | src/http_handlers.cpp:48-65 | 403 with an empty body exactly when X-API-Key differs from the secret; otherwise 200 with `{"ok":true}` as JSON; keep-alive copied |
| `HttpHandlers.HandleGetKV` | src/http_handlers.cpp:15-44 | the response is `GetKVResponse` of what the read returned, or an exception when the store connection is lost; the store is not written |
| `HttpHandlers.HandlePostKV` | src/http_handlers.cpp:46-66 | without the secret: 403 and no change to cache or store, and no request sent; with it: the body is written verbatim through `SetValue`, then 200; an exception exactly on a refused SET or a lost connection, with cache and store map unchanged; the publish log gains the message exactly as `SetValue` says |
| `Server.RouteOf` | src/main.cpp:41-56 | health only for GET `/` or `/health`; the key handlers only for GET or POST of a target starting with `/kv/`, and the key is the rest of the target |
| `Server.KeyPathRoundTrip` | src/main.cpp:49-50 | routing `/kv/` followed by any key gives back that key, undecoded |
| `Server.UnroutedRequests` | src/main.cpp:37-56 | other verbs on `/kv/...` and POST on `/` or `/health` reach no handler |
| `Server.Finish` | src/main.cpp:57-73 | an exception becomes 500 `internal error` with keep-alive off |
| `Server.Serve` | src/main.cpp:37-76 | default 404, health text, or the handler's response, with the handlers' effects on cache and store; keep-alive copied except after an exception; the loop continues exactly when the response keeps alive; only an authorised POST changes the store, and its publish log and the state after an exception are those of `HandlePostKV` |
| `Server.WriteThenConditionalRead` | src/main.cpp:49-54 | POST of a body, then GET returns 200 with exactly those bytes and their tag, then GET with that tag returns 304 with an empty body |
| `Server.ToPort` | src/main.cpp:101-103 | the number modulo 2^16, unchanged when already in range |
| `Server.SelectPort` | src/main.cpp:99-104 | PORT when set, else argv[1] when present, else 8001, always below 65536 |
| `Server.RedisConfigOf` | src/main.cpp:107-109 | REDIS_HOST and REDIS_PORT override the host and port of the store settings when set; otherwise 127.0.0.1 and 6379; the channel is always `kv_updates` |
| `Server.StartupOf` | src/main.cpp:93-113 | exit code 1 exactly when KV_API_KEY is unset; otherwise listen with that secret, which may be empty, on the selected port, with the store settings of the environment |
| `Server.AtoiOfDecimal` | src/main.cpp:101 | `atoi` reads back the decimal rendering of any number |
| `Server.AtoiOfNegativeDecimal` | src/main.cpp:101 | `atoi` reads back a minus sign and a decimal rendering |
| `Server.PortFromEnvironment` | src/main.cpp:99-101 | a port written in PORT is the port listened on, whatever the arguments |
| `Server.PortWraps` | src/main.cpp:101-103 | out-of-range ports wrap modulo 2^16: "65537" gives 1 and "-1" gives 65535 |

## Left out

- Socket I/O, the listener and accept loop, coroutine scheduling and the worker threads (src/main.cpp:27-35, 75-90, 106-129) are not modelled. One call of `Serve` is one pass of the session loop after a successful read.
- The reader/writer lock of the cache is not modelled. The model is sequential. The only interleaving it represents is the `concurrent` argument of `GetValue`.
- `DataLayer.DataLayer.SetValue`: the cache is not allowed to change during the await of the write. Only `GetValue` models that suspension point.
- The Redis client is not modelled: connection set-up, `async_run`, RESP decoding, the SUBSCRIBE request and the endless receive loop. The subscriber is modelled as one frame step, and a frame is a sequence of node strings.
- `DataLayer.Store.ExecSetPublish`: when the connection is lost, the model assumes the SET was not applied. Whether it was is unknown.
- The PUBLISH reply carries no receiver count in the model. The source only logs that count.
- SHA-1 itself is not modelled. It is a parameter returning 20 bytes.
- HTTP field names are matched exactly. Beast matches them case-insensitively.
- Log lines on stdout and stderr are not modelled.
- The Prometheus counters in src/metrics.hpp are not modelled. No modelled file includes or increments them.
- The liveness probe of the design is not modelled. No modelled file implements it.
- BIND_HOST and the parsing of the listening address are not modelled; the address is part of the socket set-up.
- `Server.Atoi`: it is modelled on unbounded integers. In C, a number outside the range of `int` is undefined behaviour.
