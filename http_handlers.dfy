/** The HTTP handlers for `/kv/{key}`: a strong ETag from the SHA-1 digest of
    the value, the conditional GET decision, and the shared-secret check in
    front of a write. The SHA-1 function itself is a parameter. */
module HttpHandlers {
  import opened Wrappers
  import opened Cache
  import DataLayer

  newtype byte = x: int | 0 <= x < 256

  /** A SHA-1 digest: 20 bytes. */
  type Digest = d: seq<byte> | |d| == 20 witness seq(20, i => 0)

  /** The digest function applied to the bytes of a value. Keys, values and
      bodies are byte strings: each `char` stands for one byte. */
  type Sha1 = string -> Digest

  /** The shared secret a write must present. */
  datatype ServerConfig = ServerConfig(apiKey: string)

  /** The request method. `Other` stands for every method but GET and POST
      and never carries either of those two names. */
  datatype Verb = Get | Post | Other(name: string)

  /** A parsed request. `fields` holds the header fields that were sent. */
  datatype Request = Request(verb: Verb, target: string, version: nat, fields: map<string, string>,
                             body: string, keepAlive: bool)

  /** A response. `contentLength` is the Content-Length field when one is
      set, the number of bytes of `body`; the other header fields are in
      `fields`. */
  datatype Response = Response(status: nat, version: nat, fields: map<string, string>,
                               contentLength: Option<nat>, body: string, keepAlive: bool)

  /** A header field of the request; a field that was not sent reads as the
      empty string. */
  function Field(req: Request, name: string): string
  {
    if name in req.fields then req.fields[name] else ""
  }

  // ---------------------------------------------------------------------
  // Hexadecimal rendering of the digest

  predicate IsLowerHex(c: char)
  {
    '0' <= c <= '9' || 'a' <= c <= 'f'
  }

  /** The value of a lower-case hexadecimal digit. */
  function HexValue(c: char): (n: nat)
    ensures IsLowerHex(c) ==> n < 16
  {
    if '0' <= c <= '9' then (c as int - '0' as int) as nat
    else if 'a' <= c <= 'f' then (c as int - 'a' as int + 10) as nat
    else 0
  }

  /** The lower-case hexadecimal digit for `n`. */
  function HexDigit(n: int): (c: char)
    requires 0 <= n < 16
    ensures IsLowerHex(c) && HexValue(c) == n
  {
    if n < 10 then ('0' as int + n) as char else ('a' as int + n - 10) as char
  }

  /** One byte as two hexadecimal digits, zero-padded. */
  function HexByte(b: byte): (r: string)
    ensures |r| == 2 && IsLowerHex(r[0]) && IsLowerHex(r[1])
    ensures 16 * HexValue(r[0]) + HexValue(r[1]) == b as int
  {
    [HexDigit(b as int / 16), HexDigit(b as int % 16)]
  }

  /** The bytes in order, two digits each. */
  function Hex(d: seq<byte>): (r: string)
    ensures |r| == 2 * |d|
    ensures forall i :: 0 <= i < |r| ==> IsLowerHex(r[i])
  {
    if d == [] then "" else Hex(d[..|d| - 1]) + HexByte(d[|d| - 1])
  }

  /** Byte `j` is rendered at positions `2j` and `2j + 1`, high digit first. */
  lemma {:induction false} HexAt(d: seq<byte>, j: nat)
    requires j < |d|
    ensures Hex(d)[2 * j] == HexDigit(d[j] as int / 16) && Hex(d)[2 * j + 1] == HexDigit(d[j] as int % 16)
  {
    var p := d[..|d| - 1];
    assert Hex(d) == Hex(p) + HexByte(d[|d| - 1]);
    if j < |d| - 1 {
      HexAt(p, j);
    }
  }

  /** Reads an even-length string of hexadecimal digits back into bytes. */
  function Unhex(s: string): (d: seq<byte>)
    requires |s| % 2 == 0
    requires forall i :: 0 <= i < |s| ==> IsLowerHex(s[i])
    ensures |d| == |s| / 2
  {
    if s == [] then []
    else Unhex(s[..|s| - 2]) + [(16 * HexValue(s[|s| - 2]) + HexValue(s[|s| - 1])) as byte]
  }

  /** Reading the hexadecimal rendering back gives the bytes. */
  lemma {:induction false} HexRoundTrip(d: seq<byte>)
    ensures Unhex(Hex(d)) == d
  {
    if d != [] {
      var p, b := d[..|d| - 1], d[|d| - 1];
      var h := Hex(d);
      assert h == Hex(p) + HexByte(b);
      assert h[..|h| - 2] == Hex(p);
      assert h[|h| - 2..] == HexByte(b);
      HexRoundTrip(p);
      assert Unhex(h) == p + [b];
      assert d == p + [b];
    }
  }

  /** The strong entity tag of a digest: the hexadecimal digest in double
      quotes, 42 characters. */
  function Etag(d: Digest): (r: string)
    ensures |r| == 42 && r[0] == '"' && r[41] == '"'
    ensures forall i :: 1 <= i < 41 ==> IsLowerHex(r[i])
  {
    "\"" + Hex(d) + "\""
  }

  /** Two digests have the same tag exactly when they are equal, so the tag
      is a strong validator of the digest. */
  lemma EtagInjective(d1: Digest, d2: Digest)
    ensures Etag(d1) == Etag(d2) <==> d1 == d2
  {
    if Etag(d1) == Etag(d2) {
      assert Hex(d1) == Etag(d1)[1..41];
      assert Hex(d2) == Etag(d2)[1..41];
      HexRoundTrip(d1);
      HexRoundTrip(d2);
    }
  }

  /** The tag of a value; it depends only on the value's bytes. */
  function EtagOf(sha1: Sha1, value: string): string
  {
    Etag(sha1(value))
  }

  /** `strongEtagFor`: digest the value, append two hexadecimal digits per
      byte, and quote the result. */
  method StrongEtagFor(sha1: Sha1, s: string) returns (etag: string)
    ensures etag == Etag(sha1(s))
  {
    var hash := sha1(s);
    var os := "";
    var i := 0;
    while i < |hash|
      invariant 0 <= i <= |hash|
      invariant os == Hex(hash[..i])
    {
      assert hash[..i + 1][..i] == hash[..i];
      os := os + HexByte(hash[i]);
      i := i + 1;
    }
    assert hash[..i] == hash;
    etag := "\"" + os + "\"";
  }

  // ---------------------------------------------------------------------
  // Responses

  /** 404 with an empty body. */
  function NotFound(req: Request): Response
  {
    Response(404, req.version, map[], Some(0), "", req.keepAlive)
  }

  /** 304 with an empty body, the tag and no-cache. */
  function NotModified(req: Request, etag: string): Response
  {
    Response(304, req.version, map["ETag" := etag, "Cache-Control" := "no-cache"], Some(0), "", req.keepAlive)
  }

  /** 200 with the value as a JSON body, no-cache and the tag. */
  function Found(req: Request, etag: string, value: string): Response
  {
    Response(200, req.version,
             map["Content-Type" := "application/json", "Cache-Control" := "no-cache", "ETag" := etag],
             Some(|value|), value, req.keepAlive)
  }

  /** 403 with an empty body. */
  function Forbidden(req: Request): Response
  {
    Response(403, req.version, map[], Some(0), "", req.keepAlive)
  }

  /** The acknowledgement of a write. */
  const Acknowledgement := "{\"ok\":true}"

  /** 200 with the acknowledgement body. */
  function Acknowledged(req: Request): Response
  {
    Response(200, req.version, map["Content-Type" := "application/json"],
             Some(|Acknowledgement|), Acknowledgement, req.keepAlive)
  }

  /** The response of a GET once `getValue` has answered `value`. */
  function GetKVResponse(req: Request, value: Option<string>, sha1: Sha1): (res: Response)
    ensures res.version == req.version && res.keepAlive == req.keepAlive
    ensures res.status in {200, 304, 404}
    ensures res.status == 404 <==> value.None?
    ensures res.status == 404 ==> res.body == "" && res.contentLength == Some(0) && res.fields == map[]
    ensures res.status == 304 <==> value.Some? && Field(req, "If-None-Match") == EtagOf(sha1, value.value)
    ensures res.status == 304 ==>
      res.body == "" && res.contentLength == Some(0)
      && res.fields == map["ETag" := EtagOf(sha1, value.value), "Cache-Control" := "no-cache"]
    ensures res.status == 200 ==>
      value.Some? && res.body == value.value && res.contentLength == Some(|value.value|)
      && res.fields == map["Content-Type" := "application/json", "Cache-Control" := "no-cache",
                           "ETag" := EtagOf(sha1, value.value)]
  {
    match value
    case None => NotFound(req)
    case Some(v) =>
      var etag := EtagOf(sha1, v);
      var inm := Field(req, "If-None-Match");
      if inm != "" && inm == etag then NotModified(req, etag) else Found(req, etag, v)
  }

  /** Whether a write presents the configured secret; a missing header is
      the empty string. */
  predicate Authorized(req: Request, cfg: ServerConfig)
  {
    Field(req, "X-API-Key") == cfg.apiKey
  }

  /** The response of a POST whose write, if authorised, completed. */
  function PostKVResponse(req: Request, cfg: ServerConfig): (res: Response)
    ensures res.version == req.version && res.keepAlive == req.keepAlive
    ensures res.status == 403 <==> Field(req, "X-API-Key") != cfg.apiKey
    ensures res.status == 403 ==> res.body == "" && res.contentLength == Some(0) && res.fields == map[]
    ensures res.status != 403 ==>
      res.status == 200 && res.body == "{\"ok\":true}" && res.contentLength == Some(11)
      && res.fields == map["Content-Type" := "application/json"]
  {
    if Authorized(req, cfg) then Acknowledged(req) else Forbidden(req)
  }

  /** A request without the header is accepted exactly when the configured
      secret is empty. */
  lemma MissingKeyMatchesOnlyEmptySecret(req: Request, cfg: ServerConfig)
    requires "X-API-Key" !in req.fields
    ensures PostKVResponse(req, cfg).status == 200 <==> cfg.apiKey == ""
  {
  }

  /** A conditional-match value that is not exactly one 42-character tag --
      `*`, a weak tag, a list of tags -- never yields 304. */
  lemma OnlyAnExactTagMatches(req: Request, value: string, sha1: Sha1)
    requires |Field(req, "If-None-Match")| != 42
    ensures GetKVResponse(req, Some(value), sha1).status == 200
  {
  }

  /** A client holding the tag of an earlier value gets 304 exactly when the
      current value has the same digest. */
  lemma RevalidationMatchesSameDigest(req: Request, earlier: string, current: string, sha1: Sha1)
    requires Field(req, "If-None-Match") == EtagOf(sha1, earlier)
    ensures GetKVResponse(req, Some(current), sha1).status == 304 <==> sha1(earlier) == sha1(current)
  {
    EtagInjective(sha1(earlier), sha1(current));
  }

  /** `handleGetKV`: read through the coordinator and decide the response.
      A lost store connection propagates as an exception. */
  method HandleGetKV(req: Request, key: string, data: DataLayer.DataLayer, sha1: Sha1,
                     fault: DataLayer.Fault, concurrent: map<string, string>) returns (res: Outcome<Response>)
    modifies data.cache, data.store
    ensures var read := DataLayer.ReadThrough(old(data.cache.entries), old(data.store.entries), key, fault);
      res == if read.Threw? then Threw else Done(GetKVResponse(req, read.value, sha1))
    ensures data.store.entries == old(data.store.entries) && data.store.published == old(data.store.published)
    ensures key in old(data.cache.entries) ==>
      data.cache.entries == old(data.cache.entries) && data.store.requests == old(data.store.requests)
    ensures key !in old(data.cache.entries) ==>
      var read := DataLayer.ReadThrough(old(data.cache.entries), old(data.store.entries), key, fault);
      data.store.requests == old(data.store.requests) + [[DataLayer.Get(key)]]
      && data.cache.entries == if read.Done? && read.value.Some? then DataLayer.FillAfterFetch(concurrent, key, read.value.value)
                               else concurrent
  {
    var value := data.GetValue(key, fault, concurrent);
    if value.Threw? {
      return Threw;
    }
    if value.value.None? {
      return Done(NotFound(req));
    }
    var etag := StrongEtagFor(sha1, value.value.value);
    var inm := Field(req, "If-None-Match");
    if inm != "" && inm == etag {
      res := Done(NotModified(req, etag));
    } else {
      res := Done(Found(req, etag, value.value.value));
    }
  }

  /** `handlePostKV`: refuse a request without the secret before touching
      anything; otherwise write the body verbatim and acknowledge. An
      exception out of `setValue` propagates. */
  method HandlePostKV(req: Request, key: string, cfg: ServerConfig, data: DataLayer.DataLayer,
                      fault: DataLayer.Fault) returns (res: Outcome<Response>)
    modifies data.cache, data.store
    ensures !Authorized(req, cfg) ==>
      res == Done(Forbidden(req)) && data.cache.entries == old(data.cache.entries)
      && data.store.entries == old(data.store.entries) && data.store.published == old(data.store.published)
      && data.store.requests == old(data.store.requests)
    ensures Authorized(req, cfg) ==>
      data.store.requests == old(data.store.requests)
        + [[DataLayer.Set(key, req.body), DataLayer.Publish(data.cfg.channel, key)]]
      && (res == Threw <==> fault == DataLayer.SetRefused || fault == DataLayer.Disconnected)
      && data.store.published == old(data.store.published)
        + (if fault == DataLayer.Healthy || fault == DataLayer.SetRefused
           then [DataLayer.Message(data.cfg.channel, key)] else [])
    ensures res.Threw? ==>
      data.cache.entries == old(data.cache.entries) && data.store.entries == old(data.store.entries)
    ensures Authorized(req, cfg) && res.Done? ==>
      res.value == Acknowledged(req)
      && data.cache.entries == Upserted(old(data.cache.entries), key, req.body)
      && data.store.entries == Upserted(old(data.store.entries), key, req.body)
    ensures res.Done? ==> res.value == PostKVResponse(req, cfg)
  {
    var api := Field(req, "X-API-Key");
    if api != cfg.apiKey {
      return Done(Forbidden(req));
    }
    var jsonBody := req.body;
    var written := data.SetValue(key, jsonBody, fault);
    if written.Threw? {
      return Threw;
    }
    res := Done(Acknowledged(req));
  }
}
