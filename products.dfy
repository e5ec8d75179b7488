/** The `/api/products` handler: env and method guards, the warm-instance TTL cache, the
    product-base fetch and the error branch. The clock, the environment, the HTTP method and
    the outcome of the upstream call are parameters. */
module Products {
  import opened Options
  import opened Catalog
  import Text

  /** `TTL_MINUTES`, and the freshness window it gives in milliseconds. */
  const TtlMinutes: int := 10
  const TtlMs: int := TtlMinutes * 60000

  /** The one cache key, `keno-lt-${SUBCATEGORY_ID}`. */
  const CacheKey: string := "keno-lt-" + Text.Decimal(SubcategoryId)

  const Endpoint: string := "https://api.wycena.keno-energy.com"
  const MissingKeyMessage: string := "Missing KENO_API_KEY env var"
  const MethodNotAllowedMessage: string := "Method Not Allowed"

  /** The body served on success and stored in the cache. */
  datatype Payload = Payload(connectionStatus: string, productsBase: seq<Product>)

  /** A cache slot: the payload and the request-start time it was stored at. */
  datatype CacheEntry = CacheEntry(data: Payload, when: int)

  /** The decoded vendor body. `errors` is `Some(text)` when the `errors` field is truthy,
      `text` being what `new Error(raw.errors)` makes its message. */
  datatype RawResponse = RawResponse(errors: Option<string>, connectionStatus: string, productsBase: seq<RawProduct>)

  /** What `apiRes.json()` gives: a decoded body, or the message of the exception it throws. */
  datatype Body = Unparsable(message: string) | Parsed(raw: RawResponse)

  /** The outcome of the upstream `fetch`: it rejects with a message, or a reply arrives. */
  datatype Upstream = Unreachable(message: string) | Reply(status: nat, body: Body)

  /** The POST the handler sends upstream. */
  datatype RpcRequest = RpcRequest(url: string, apikey: string, rpcMethod: string, parameters: seq<string>)

  datatype ResponseBody = ErrorBody(error: string) | PayloadBody(payload: Payload)

  /** Status, headers set with `setHeader`, and the JSON body. */
  datatype Response = Response(status: int, headers: map<string, string>, body: ResponseBody)

  lemma CacheKeyIsLiteral()
    ensures CacheKey == "keno-lt-78"
  {
    assert Text.Decimal(7) == "7";
    assert Text.Decimal(78) == Text.Decimal(7) + "8";
  }

  /** `const { KENO_API_KEY = '' } = process.env`. */
  function ApiKey(env: map<string, string>): (k: string)
    ensures "KENO_API_KEY" !in env ==> k == ""
    ensures "KENO_API_KEY" in env ==> k == env["KENO_API_KEY"]
  {
    if "KENO_API_KEY" in env then env["KENO_API_KEY"] else ""
  }

  /** `apiRes.ok`. */
  predicate IsOkStatus(status: int) {
    200 <= status <= 299
  }

  /** `now - cached.when < TTL_MINUTES * 60e3`. */
  predicate IsFresh(e: CacheEntry, now: int) {
    now - e.when < TtlMs
  }

  /** The cache hit test: the payload stored under the key, if its entry is still fresh. */
  function Lookup(entries: map<string, CacheEntry>, now: int): (r: Option<Payload>)
    ensures r.Some? <==> CacheKey in entries && now - entries[CacheKey].when < 600000
    ensures r.Some? ==> r.value == entries[CacheKey].data
  {
    if CacheKey in entries && IsFresh(entries[CacheKey], now) then Some(entries[CacheKey].data) else None
  }

  /** `__kenoCache[cacheKey] = { data: payload, when: now }`. */
  function Store(entries: map<string, CacheEntry>, p: Payload, now: int): (r: map<string, CacheEntry>)
    ensures CacheKey in r && r[CacheKey] == CacheEntry(p, now)
    ensures r.Keys == entries.Keys + {CacheKey}
    ensures forall k :: k in entries && k != CacheKey ==> r[k] == entries[k]
  {
    entries[CacheKey := CacheEntry(p, now)]
  }

  function ProductBaseRequest(apikey: string): RpcRequest {
    RpcRequest(Endpoint, apikey, "GetProductBase", [])
  }

  /** Specification of the `try` block: the payload it builds, or the message it throws. */
  function Fetched(up: Upstream): Result<Payload, string> {
    match up
    case Unreachable(m) => Err(m)
    case Reply(status, body) =>
      if !IsOkStatus(status) then Err("KENO API " + Text.Decimal(status))
      else match body
        case Unparsable(m) => Err(m)
        case Parsed(raw) =>
          if raw.errors.Some? then Err(raw.errors.value)
          else Ok(Payload(raw.connectionStatus, Selected(raw.productsBase)))
  }

  /** A successful fetch carries the vendor's connection status and exactly the normalized
      rows of the sub-category, in order; any failure is one of the two thrown errors
      (or an exception of `fetch` / `json()`). */
  lemma FetchedOutcome(up: Upstream)
    ensures Fetched(up).Ok? <==>
            up.Reply? && IsOkStatus(up.status) && up.body.Parsed? && up.body.raw.errors.None?
    ensures up.Reply? && !IsOkStatus(up.status) ==> Fetched(up) == Err("KENO API " + Text.Decimal(up.status))
    ensures up.Reply? && IsOkStatus(up.status) && up.body.Parsed? && up.body.raw.errors.Some? ==>
              Fetched(up) == Err(up.body.raw.errors.value)
    ensures Fetched(up).Ok? ==>
              var raw, p := up.body.raw, Fetched(up).value;
              && p.connectionStatus == raw.connectionStatus
              && |p.productsBase| <= |raw.productsBase|
              && |p.productsBase| == |KeptIndices(raw.productsBase)|
              && (forall k :: 0 <= k < |p.productsBase| ==>
                    p.productsBase[k] == Normalize(raw.productsBase[KeptIndices(raw.productsBase)[k]]))
              && forall q :: q in p.productsBase <==>
                   exists i :: 0 <= i < |raw.productsBase| && InSubcategory(raw.productsBase[i].subcategoryId)
                                 && Normalize(raw.productsBase[i]) == q
  {
    if Fetched(up).Ok? {
      var raw := up.body.raw;
      SelectedIsOrderedSubsequence(raw.productsBase);
      forall q ensures q in Fetched(up).value.productsBase <==>
                   exists i :: 0 <= i < |raw.productsBase| && InSubcategory(raw.productsBase[i].subcategoryId)
                                 && Normalize(raw.productsBase[i]) == q
      {
        SelectedMembers(raw.productsBase, q);
      }
    }
  }

  /** The 502 message of a non-ok reply identifies its status. */
  lemma StatusMessageIdentifiesStatus(s: nat, t: nat, b: Body, c: Body)
    requires !IsOkStatus(s) && !IsOkStatus(t) && s != t
    ensures Fetched(Reply(s, b)).Err? && Fetched(Reply(t, c)).Err?
    ensures Fetched(Reply(s, b)).error != Fetched(Reply(t, c)).error
  {
    Text.DecimalInjective(s, t);
    var ms, mt := "KENO API " + Text.Decimal(s), "KENO API " + Text.Decimal(t);
    assert ms[9..] == Text.Decimal(s) && mt[9..] == Text.Decimal(t);
  }

  /** An entry stored at `now` is served exactly while `later - now` is under the TTL. */
  lemma LookupAfterStore(entries: map<string, CacheEntry>, p: Payload, now: int, later: int)
    ensures Lookup(Store(entries, p, now), later) == if later < now + 600000 then Some(p) else None
  {
  }

  /** The process-wide `globalThis` of one warm instance. */
  class WarmInstance {
    /** `globalThis.__kenoCache`: absent until a request first gets past the guards. */
    var bucket: Option<map<string, CacheEntry>>

    /** A cold start. */
    constructor ()
      ensures bucket == None
    {
      bucket := None;
    }

    /** The cache contents; an absent bucket holds nothing. */
    function Entries(): map<string, CacheEntry>
      reads this
    {
      bucket.GetOr(map[])
    }

    /** One invocation of the handler at time `now`. `sent` is the upstream request it
        issues, if any. */
    method Handle(env: map<string, string>, httpMethod: string, now: int, upstream: Upstream)
      returns (resp: Response, sent: Option<RpcRequest>)
      modifies this
      ensures ApiKey(env) == "" ==>
                && resp == Response(500, map[], ErrorBody(MissingKeyMessage))
                && sent == None && bucket == old(bucket)
      ensures ApiKey(env) != "" && httpMethod != "GET" ==>
                && resp == Response(405, map["Allow" := "GET"], ErrorBody(MethodNotAllowedMessage))
                && sent == None && bucket == old(bucket)
      ensures ApiKey(env) != "" && httpMethod == "GET" && Lookup(old(Entries()), now).Some? ==>
                && resp == Response(200, map["X-Data-Source" := "cache"], PayloadBody(Lookup(old(Entries()), now).value))
                && sent == None && bucket == Some(old(Entries()))
      ensures ApiKey(env) != "" && httpMethod == "GET" && Lookup(old(Entries()), now).None? ==>
                && sent == Some(ProductBaseRequest(ApiKey(env)))
                && match Fetched(upstream)
                   case Ok(p) => resp == Response(200, map[], PayloadBody(p)) && bucket == Some(Store(old(Entries()), p, now))
                   case Err(m) => resp == Response(502, map[], ErrorBody(m)) && bucket == Some(old(Entries()))
    {
      var key := ApiKey(env);
      if key == "" {
        return Response(500, map[], ErrorBody(MissingKeyMessage)), None;
      }
      if httpMethod != "GET" {
        return Response(405, map["Allow" := "GET"], ErrorBody(MethodNotAllowedMessage)), None;
      }
      if bucket.None? {
        bucket := Some(map[]);
      }
      var entries := bucket.value;
      if CacheKey in entries && IsFresh(entries[CacheKey], now) {
        return Response(200, map["X-Data-Source" := "cache"], PayloadBody(entries[CacheKey].data)), None;
      }
      sent := Some(ProductBaseRequest(key));
      match upstream
      case Unreachable(m) =>
        resp := Response(502, map[], ErrorBody(m));
      case Reply(status, body) =>
        if !IsOkStatus(status) {
          resp := Response(502, map[], ErrorBody("KENO API " + Text.Decimal(status)));
        } else {
          match body
          case Unparsable(m) =>
            resp := Response(502, map[], ErrorBody(m));
          case Parsed(raw) =>
            if raw.errors.Some? {
              resp := Response(502, map[], ErrorBody(raw.errors.value));
            } else {
              var keep, total := NormalizeAndFilter(raw.productsBase);
              var payload := Payload(raw.connectionStatus, keep);
              bucket := Some(entries[CacheKey := CacheEntry(payload, now)]);
              resp := Response(200, map[], PayloadBody(payload));
            }
        }
    }
  }

  /** After a request that missed and fetched successfully, a request at any time before the
      entry's TTL runs out is a cache hit serving the payload just stored, with no upstream call. */
  method RepeatWithinTtl(w: WarmInstance, env: map<string, string>, now: int, later: int, first: Upstream, second: Upstream)
      returns (r1: Response, r2: Response, sent2: Option<RpcRequest>)
    requires ApiKey(env) != "" && Fetched(first).Ok?
    requires Lookup(w.Entries(), now).None? && later < now + TtlMs
    modifies w
    ensures r1 == Response(200, map[], PayloadBody(Fetched(first).value))
    ensures r2 == Response(200, map["X-Data-Source" := "cache"], PayloadBody(Fetched(first).value))
    ensures sent2 == None
    ensures w.bucket == Some(Store(old(w.Entries()), Fetched(first).value, now))
  {
    var sent1;
    r1, sent1 := w.Handle(env, "GET", now, first);
    r2, sent2 := w.Handle(env, "GET", later, second);
  }

  /** After a request that missed and fetched successfully, a request once the TTL has run out
      misses again: it issues the upstream call and, on success, overwrites the entry with the new
      payload stamped with its own start time. */
  method RefetchAfterTtl(w: WarmInstance, env: map<string, string>, now: int, later: int, first: Upstream, second: Upstream)
      returns (r1: Response, r2: Response, sent2: Option<RpcRequest>)
    requires ApiKey(env) != "" && Fetched(first).Ok? && Fetched(second).Ok?
    requires Lookup(w.Entries(), now).None? && later >= now + TtlMs
    modifies w
    ensures r1 == Response(200, map[], PayloadBody(Fetched(first).value))
    ensures sent2 == Some(ProductBaseRequest(ApiKey(env)))
    ensures r2 == Response(200, map[], PayloadBody(Fetched(second).value))
    ensures w.bucket == Some(Store(Store(old(w.Entries()), Fetched(first).value, now), Fetched(second).value, later))
  {
    var sent1;
    r1, sent1 := w.Handle(env, "GET", now, first);
    LookupAfterStore(old(w.Entries()), Fetched(first).value, now, later);
    r2, sent2 := w.Handle(env, "GET", later, second);
  }

  /** Cold start, a hit five minutes later, a failed refetch after eleven minutes that leaves
      the old entry in place, then a successful refetch that overwrites it. */
  method ColdWarmExpire(env: map<string, string>, t0: int, good: Upstream, down: Upstream, renewed: Upstream)
    requires ApiKey(env) != "" && Fetched(good).Ok? && Fetched(renewed).Ok? && Fetched(down).Err?
  {
    var w := new WarmInstance();
    var r, sent := w.Handle(env, "GET", t0, good);
    assert sent.Some? && r.status == 200 && r.headers == map[];
    r, sent := w.Handle(env, "GET", t0 + 5 * 60000, down);
    assert sent.None? && r.headers == map["X-Data-Source" := "cache"] && r.body == PayloadBody(Fetched(good).value);
    r, sent := w.Handle(env, "GET", t0 + 11 * 60000, down);
    assert sent.Some? && r.status == 502;
    assert w.Entries()[CacheKey] == CacheEntry(Fetched(good).value, t0);
    r, sent := w.Handle(env, "POST", t0 + 11 * 60000, renewed);
    assert r.status == 405 && sent.None?;
    r, sent := w.Handle(env, "GET", t0 + 11 * 60000, renewed);
    assert sent.Some? && r.body == PayloadBody(Fetched(renewed).value);
    assert w.Entries()[CacheKey] == CacheEntry(Fetched(renewed).value, t0 + 11 * 60000);
  }
}
