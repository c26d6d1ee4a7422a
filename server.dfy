/** The request routing of one session step and the start-up configuration
    choice of the service's entry point. Sockets, the accept loop and the
    worker threads are not modelled: one call of `Serve` is one pass of the
    session loop after a request has been read. */
module Server {
  import opened Wrappers
  import opened HttpHandlers
  import opened Cache
  import DataLayer

  // ---------------------------------------------------------------------
  // Routing

  datatype Route = Health | KvGet(key: string) | KvPost(key: string) | Unrouted

  predicate StartsWith(s: string, prefix: string)
  {
    |prefix| <= |s| && s[..|prefix|] == prefix
  }

  const KvPrefix := "/kv/"

  /** Which handler a request reaches: the health text for GET of `/` or
      `/health`, the key handlers for GET and POST of a target under `/kv/`
      (the key is the rest of the target, undecoded), nothing otherwise. */
  function RouteOf(verb: Verb, target: string): (r: Route)
    ensures r == Health <==> verb == Get && (target == "/" || target == "/health")
    ensures r.KvGet? <==> verb == Get && StartsWith(target, KvPrefix)
    ensures r.KvPost? <==> verb == Post && StartsWith(target, KvPrefix)
    ensures r.KvGet? || r.KvPost? ==> target == KvPrefix + r.key
  {
    assert !StartsWith("/", KvPrefix) && !StartsWith("/health", KvPrefix) by {
      assert "/health"[..|KvPrefix|][1] != KvPrefix[1];
    }
    if verb == Get && (target == "/" || target == "/health") then Health
    else if StartsWith(target, KvPrefix) then
      var key := target[|KvPrefix|..];
      if verb == Get then KvGet(key)
      else if verb == Post then KvPost(key)
      else Unrouted
    else Unrouted
  }

  /** Routing inverts the construction of a key's path, whatever the key
      holds (slashes, a query string, nothing at all). */
  lemma {:induction false} KeyPathRoundTrip(key: string)
    ensures RouteOf(Get, KvPrefix + key) == KvGet(key)
    ensures RouteOf(Post, KvPrefix + key) == KvPost(key)
  {
    assert (KvPrefix + key)[..|KvPrefix|] == KvPrefix;
    assert (KvPrefix + key)[|KvPrefix|..] == key;
  }

  /** Other verbs on a key and POST on the health path reach no handler. */
  lemma UnroutedRequests(verb: Verb, key: string)
    requires verb != Get && verb != Post
    ensures RouteOf(verb, KvPrefix + key) == Unrouted
    ensures RouteOf(Post, "/health") == Unrouted && RouteOf(Post, "/") == Unrouted
  {
    assert "/health"[..|KvPrefix|][1] != KvPrefix[1];
  }

  /** The response a session starts from: 404, no fields, no body. */
  function DefaultResponse(req: Request): Response
  {
    Response(404, req.version, map[], None, "", req.keepAlive)
  }

  const ServiceName := "json-kv-service"

  /** The health text. */
  function HealthResponse(req: Request): Response
  {
    Response(200, req.version, map["Content-Type" := "text/plain; charset=utf-8"],
             Some(|ServiceName|), ServiceName, req.keepAlive)
  }

  /** What any exception out of a handler becomes; the connection closes. */
  function InternalError(req: Request): Response
  {
    Response(500, req.version, map["Content-Type" := "text/plain; charset=utf-8"],
             Some(|"internal error"|), "internal error", false)
  }

  /** A handler's result as the session sends it. */
  function Finish(req: Request, out: Outcome<Response>): (res: Response)
    ensures out.Done? ==> res == out.value
    ensures out.Threw? ==> res.status == 500 && !res.keepAlive && res.body == "internal error"
  {
    match out
    case Done(r) => r
    case Threw => InternalError(req)
  }

  /** The route of a request. */
  function RequestRoute(req: Request): Route
  {
    RouteOf(req.verb, req.target)
  }

  /** One pass of the session loop for a request already read: route,
      handle, map an exception to 500, and report whether to read another
      request (the response's keep-alive flag). */
  method Serve(req: Request, cfg: ServerConfig, data: DataLayer.DataLayer, sha1: Sha1,
               fault: DataLayer.Fault, concurrent: map<string, string>) returns (res: Response, keepReading: bool)
    modifies data.cache, data.store
    ensures keepReading == res.keepAlive
    ensures res.status != 500 ==> res.keepAlive == req.keepAlive
    ensures res.status == 500 ==> !keepReading
    ensures data.store.entries != old(data.store.entries) || data.store.published != old(data.store.published) ==>
      RequestRoute(req).KvPost? && Authorized(req, cfg)
    ensures RequestRoute(req).Unrouted? || RequestRoute(req).Health? ==>
      res == (if RequestRoute(req).Health? then HealthResponse(req) else DefaultResponse(req))
      && data.cache.entries == old(data.cache.entries) && data.store.requests == old(data.store.requests)
    ensures RequestRoute(req).KvGet? ==>
      var key := RequestRoute(req).key;
      var read := DataLayer.ReadThrough(old(data.cache.entries), old(data.store.entries), key, fault);
      && res == (if read.Threw? then InternalError(req) else GetKVResponse(req, read.value, sha1))
      && (key in old(data.cache.entries) ==>
            data.cache.entries == old(data.cache.entries) && data.store.requests == old(data.store.requests))
      && (key !in old(data.cache.entries) ==>
            data.store.requests == old(data.store.requests) + [[DataLayer.Get(key)]]
            && data.cache.entries == if read.Done? && read.value.Some?
                                     then DataLayer.FillAfterFetch(concurrent, key, read.value.value)
                                     else concurrent)
    ensures RequestRoute(req).KvPost? && !Authorized(req, cfg) ==>
      res == PostKVResponse(req, cfg)
      && data.cache.entries == old(data.cache.entries) && data.store.requests == old(data.store.requests)
    ensures RequestRoute(req).KvPost? && Authorized(req, cfg) ==>
      var key := RequestRoute(req).key;
      var throws := fault == DataLayer.SetRefused || fault == DataLayer.Disconnected;
      && res == (if throws then InternalError(req) else PostKVResponse(req, cfg))
      && data.store.requests == old(data.store.requests)
           + [[DataLayer.Set(key, req.body), DataLayer.Publish(data.cfg.channel, key)]]
      && data.store.published == old(data.store.published)
           + (if fault == DataLayer.Healthy || fault == DataLayer.SetRefused
              then [DataLayer.Message(data.cfg.channel, key)] else [])
      && (throws ==>
            data.cache.entries == old(data.cache.entries) && data.store.entries == old(data.store.entries))
      && (!throws ==>
            data.cache.entries == Upserted(old(data.cache.entries), key, req.body)
            && data.store.entries == Upserted(old(data.store.entries), key, req.body))
  {
    res := DefaultResponse(req);
    var route := RouteOf(req.verb, req.target);
    match route {
      case Health =>
        res := HealthResponse(req);
      case KvGet(key) =>
        var out := HandleGetKV(req, key, data, sha1, fault, concurrent);
        res := Finish(req, out);
      case KvPost(key) =>
        var out := HandlePostKV(req, key, cfg, data, fault);
        res := Finish(req, out);
      case Unrouted =>
    }
    keepReading := res.keepAlive;
  }

  /** A write followed by two reads of the same key on one instance, with
      the writer's own invalidation delivered in between: the write is
      acknowledged, the read returns exactly the written bytes with the tag
      of those bytes, and a read presenting that tag gets 304. */
  method WriteThenConditionalRead(cfg: ServerConfig, data: DataLayer.DataLayer, sha1: Sha1,
                                  key: string, body: string) returns (post: Response, get: Response, revalidate: Response)
    modifies data.cache, data.store
    ensures post.status == 200 && post.body == Acknowledgement
    ensures get.status == 200 && get.body == body && "ETag" in get.fields && get.fields["ETag"] == EtagOf(sha1, body)
    ensures revalidate.status == 304 && revalidate.body == "" && "ETag" in revalidate.fields && revalidate.fields["ETag"] == EtagOf(sha1, body)
  {
    KeyPathRoundTrip(key);
    var target := KvPrefix + key;
    var keep: bool;
    post, keep := Serve(Request(Post, target, 11, map["X-API-Key" := cfg.apiKey], body, true),
                        cfg, data, sha1, DataLayer.Healthy, data.cache.entries);
    assert data.store.entries[key] == body;
    var m := data.store.published[|data.store.published| - 1];
    data.ProcessFrame(DataLayer.FrameOf(m));
    DataLayer.MessageFrameInvalidates(m);
    assert key in data.cache.entries ==> data.cache.entries[key] == body;
    get, keep := Serve(Request(Get, target, 11, map[], "", true),
                       cfg, data, sha1, DataLayer.Healthy, data.cache.entries);
    revalidate, keep := Serve(Request(Get, target, 11, map["If-None-Match" := EtagOf(sha1, body)], "", true),
                              cfg, data, sha1, DataLayer.Healthy, data.cache.entries);
  }

  // ---------------------------------------------------------------------
  // Start-up configuration

  /** What the entry point does before setting up the server: refuse to
      start, with an exit code, or listen with a secret on a port and
      connect to the store with the given settings. */
  datatype Startup = Refused(exitCode: int) | Listening(cfg: ServerConfig, port: nat, redis: DataLayer.RedisConfig)

  predicate IsDigit(c: char)
  {
    '0' <= c <= '9'
  }

  /** The white space the C library skips before a number. */
  predicate IsSpace(c: char)
  {
    c == ' ' || 9 <= c as int <= 13
  }

  function SkipSpace(s: string): (r: string)
    ensures r == [] || !IsSpace(r[0])
  {
    if s != [] && IsSpace(s[0]) then SkipSpace(s[1..]) else s
  }

  /** The longest prefix of digits. */
  function LeadingDigits(s: string): (r: string)
    ensures |r| <= |s| && r == s[..|r|]
    ensures forall i :: 0 <= i < |r| ==> IsDigit(r[i])
    ensures |r| < |s| ==> !IsDigit(s[|r|])
  {
    if s != [] && IsDigit(s[0]) then [s[0]] + LeadingDigits(s[1..]) else []
  }

  /** The value of a string of decimal digits. */
  function DecimalValue(digits: string): nat
    requires forall i :: 0 <= i < |digits| ==> IsDigit(digits[i])
  {
    if digits == [] then 0
    else
      var last := digits[|digits| - 1];
      assert IsDigit(last);
      DecimalValue(digits[..|digits| - 1]) * 10 + (last as int - '0' as int)
  }

  /** `atoi`: skip white space, read an optional sign and then as many digits
      as follow; no digits read as 0. Not bounded to the range of `int`. */
  function Atoi(s: string): int
  {
    var t := SkipSpace(s);
    if t != [] && t[0] == '-' then -(DecimalValue(LeadingDigits(t[1..])) as int)
    else if t != [] && t[0] == '+' then DecimalValue(LeadingDigits(t[1..]))
    else DecimalValue(LeadingDigits(t))
  }

  /** The conversion to `unsigned short`: the value modulo 2^16. */
  function ToPort(n: int): (p: nat)
    ensures p < 0x1_0000
    ensures (n - p) % 0x1_0000 == 0
    ensures 0 <= n < 0x1_0000 ==> p == n
  {
    n % 0x1_0000
  }

  const DefaultPort := 8001

  /** The listening port: the PORT variable when set, else the first
      argument when there is one, else 8001. `args` holds the program name
      first, as `argv` does. */
  function SelectPort(env: map<string, string>, args: seq<string>): (port: nat)
    ensures port < 0x1_0000
    ensures "PORT" in env ==> port == ToPort(Atoi(env["PORT"]))
    ensures "PORT" !in env && |args| > 1 ==> port == ToPort(Atoi(args[1]))
    ensures "PORT" !in env && |args| <= 1 ==> port == DefaultPort
  {
    if "PORT" in env then ToPort(Atoi(env["PORT"]))
    else if |args| > 1 then ToPort(Atoi(args[1]))
    else DefaultPort
  }

  /** The store settings: REDIS_HOST and REDIS_PORT, each when set, over
      the defaults; the channel always keeps its default. */
  function RedisConfigOf(env: map<string, string>): (rc: DataLayer.RedisConfig)
    ensures rc.host == if "REDIS_HOST" in env then env["REDIS_HOST"] else "127.0.0.1"
    ensures rc.port == if "REDIS_PORT" in env then env["REDIS_PORT"] else "6379"
    ensures rc.channel == "kv_updates"
  {
    var d := DataLayer.DefaultRedisConfig;
    var withHost := if "REDIS_HOST" in env then d.(host := env["REDIS_HOST"]) else d;
    if "REDIS_PORT" in env then withHost.(port := env["REDIS_PORT"]) else withHost
  }

  /** The start-up decision: without KV_API_KEY, exit with 1 before anything
      else; otherwise listen with that secret (possibly empty) on the
      selected port, with the store settings of the environment. */
  function StartupOf(env: map<string, string>, args: seq<string>): (r: Startup)
    ensures r.Refused? <==> "KV_API_KEY" !in env
    ensures r.Refused? ==> r.exitCode == 1
    ensures r.Listening? ==>
      r.cfg == ServerConfig(env["KV_API_KEY"]) && r.port == SelectPort(env, args) && r.port < 0x1_0000
      && r.redis == RedisConfigOf(env)
  {
    if "KV_API_KEY" !in env then Refused(1)
    else Listening(ServerConfig(env["KV_API_KEY"]), SelectPort(env, args), RedisConfigOf(env))
  }

  /** The decimal rendering of a number. */
  function Decimal(n: nat): (s: string)
    ensures |s| > 0 && forall i :: 0 <= i < |s| ==> IsDigit(s[i])
  {
    if n < 10 then [('0' as int + n) as char]
    else Decimal(n / 10) + [('0' as int + n % 10) as char]
  }

  lemma {:induction false} DecimalValueOfDecimal(n: nat)
    ensures DecimalValue(Decimal(n)) == n
  {
    if n >= 10 {
      var s := Decimal(n);
      assert s[..|s| - 1] == Decimal(n / 10);
      DecimalValueOfDecimal(n / 10);
    }
  }

  lemma {:induction false} LeadingDigitsOfDigits(s: string)
    requires forall i :: 0 <= i < |s| ==> IsDigit(s[i])
    ensures LeadingDigits(s) == s
  {
    if s != [] {
      LeadingDigitsOfDigits(s[1..]);
    }
  }

  /** `atoi` reads back the decimal rendering of any number. */
  lemma AtoiOfDecimal(n: nat)
    ensures Atoi(Decimal(n)) == n
  {
    var s := Decimal(n);
    assert !IsSpace(s[0]) && s[0] != '-' && s[0] != '+';
    LeadingDigitsOfDigits(s);
    DecimalValueOfDecimal(n);
  }

  /** A port written in decimal in PORT is the port listened on, whatever
      the arguments say. */
  lemma PortFromEnvironment(env: map<string, string>, args: seq<string>, port: nat)
    requires port < 0x1_0000
    requires "KV_API_KEY" in env && "PORT" in env && env["PORT"] == Decimal(port)
    ensures StartupOf(env, args) == Listening(ServerConfig(env["KV_API_KEY"]), port, RedisConfigOf(env))
  {
    AtoiOfDecimal(port);
  }

  /** `atoi` reads back a minus sign followed by a decimal rendering. */
  lemma AtoiOfNegativeDecimal(n: nat)
    ensures Atoi("-" + Decimal(n)) == -(n as int)
  {
    var s := Decimal(n);
    var t := "-" + s;
    assert SkipSpace(t) == t;
    assert t[1..] == s;
    LeadingDigitsOfDigits(s);
    DecimalValueOfDecimal(n);
  }

  /** Ports outside 0..65535 wrap: the number read is taken modulo 2^16, so
      "65537" listens on 1 and "-1" on 65535. */
  lemma PortWraps(n: nat)
    ensures ToPort(Atoi(Decimal(n))) == n % 0x1_0000
    ensures ToPort(Atoi("-" + Decimal(n))) == (-(n as int)) % 0x1_0000
  {
    AtoiOfDecimal(n);
    AtoiOfNegativeDecimal(n);
  }
}
