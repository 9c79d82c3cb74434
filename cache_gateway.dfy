/**
 * The cache-aside read-through handler `getRedis`, mounted on
 * `GET /character` and `GET /character/:id`.
 *
 * `Serve` is the specification: the handler as a function of the store
 * contents, the request and what its collaborators answer. `GetRedis` is the
 * implementation: it performs the handler's steps against a `RedisClient`,
 * and its postcondition proves it equal to `Serve`.
 */
module CacheGateway {
  import opened Wrappers
  import opened JsNumber
  import opened Json
  import opened RedisStore

  /** The key of the whole collection, and the prefix of single-item keys. */
  const CollectionKey: string := "character"

  /** The `EX` option of the write-back. */
  const CacheTtlSeconds: int := 10

  /**
   * The store key for the route parameter `id` (None when the route has no
   * `:id`): the collection key when `isNaN(id)`, else the item key.
   */
  function CacheKey(id: Option<string>): (key: string)
    ensures key == CollectionKey <==> IsNaN(id)
    ensures key != CollectionKey ==> key == CollectionKey + "/" + id.value
  {
    if IsNaN(id) then CollectionKey else CollectionKey + "/" + id.value
  }

  /** What the handler passes to `res.send`: a JSON payload, or an error's message. */
  datatype Response = Body(data: Json) | ErrorText(message: string)

  /**
   * The outcome of one request: the response, whether the cache branch was
   * taken, and the URL of the upstream call if one was made.
   */
  datatype Reply = Reply(response: Response, servedFromCache: bool, upstreamUrl: Option<string>)

  /** The errors `client.get` and `client.set` throw during this request, if they do. */
  datatype Faults = Faults(getError: Option<string>, setError: Option<string>)

  /**
   * Everything outside the store: `process.env.API_URL`, the upstream API as
   * reached by `axios.get` (its data, or the thrown error's message), and JSON.
   */
  datatype Collaborators = Collaborators(apiUrl: string, fetch: string -> Result<Json, string>, codec: Codec)

  /** JavaScript truthiness of the reply of `client.get`: nil and "" are both falsy. */
  predicate IsTruthy(reply: Option<string>): (r: bool)
    ensures reply.None? ==> !r
    ensures reply.Some? ==> (r <==> |reply.value| > 0)
  {
    reply.Some? && reply.value != ""
  }

  /**
   * The result of `JSON.parse(reply)` as sent: the value, or, when parse
   * throws, the SyntaxError's message (caught by the handler's `catch`).
   */
  function ParsedResponse(codec: Codec, text: string): (r: Response)
    ensures codec.parse(text).Ok? ==> r == Body(codec.parse(text).value)
    ensures codec.parse(text).Err? ==> r == ErrorText(codec.parse(text).error)
    ensures Lawful(codec) ==> forall p | ValidJson(p) && text == codec.stringify(p) :: r == Body(p)
  {
    match codec.parse(text)
    case Ok(p) => Body(p)
    case Err(m) => ErrorText(m)
  }

  /**
   * One request to `getRedis`: the store afterwards and the reply.
   * Only the request's own key can change, it changes only after an upstream
   * call whose data is then sent, and a cached answer never calls upstream.
   */
  function Serve(entries: map<string, Entry>, deps: Collaborators, id: Option<string>, now: int, faults: Faults)
    : (out: (map<string, Entry>, Reply))
    ensures out.0 - {CacheKey(id)} == entries - {CacheKey(id)}
    ensures out.0 != entries ==> out.1.upstreamUrl.Some? && out.1.response.Body?
    ensures out.0 != entries ==> CacheKey(id) in out.0 && out.0[CacheKey(id)].expiresAt == Some(now + CacheTtlSeconds)
    ensures out.1.upstreamUrl.Some? ==> out.1.upstreamUrl.value == deps.apiUrl + CacheKey(id)
    ensures out.1.servedFromCache ==> out.1.upstreamUrl.None? && out.0 == entries
  {
    var key := CacheKey(id);
    if faults.getError.Some? then
      (entries, Reply(ErrorText(faults.getError.value), false, None))
    else
      var reply := Lookup(entries, key, now);
      if IsTruthy(reply) then
        (entries, Reply(ParsedResponse(deps.codec, reply.value), true, None))
      else
        var url := deps.apiUrl + key;
        match deps.fetch(url)
        case Err(m) => (entries, Reply(ErrorText(m), false, Some(url)))
        case Ok(data) =>
          if faults.setError.Some? then
            (entries, Reply(ErrorText(faults.setError.value), false, Some(url)))
          else
            (SetEx(entries, key, deps.codec.stringify(data), CacheTtlSeconds, now), Reply(Body(data), false, Some(url)))
  }

  /**
   * `getRedis(req, res)`: derive the key, try the cache, and on a miss fetch
   * upstream and write back with a 10-second expiry; any thrown error becomes
   * the response text.
   */
  method GetRedis(client: RedisClient, deps: Collaborators, id: Option<string>, now: int, faults: Faults)
    returns (reply: Reply)
    modifies client
    ensures (client.entries, reply) == Serve(old(client.entries), deps, id, now, faults)
  {
    var key := CacheKey(id);
    var got := client.Get(key, now, faults.getError);
    if got.Err? {
      return Reply(ErrorText(got.error), false, None);
    }
    if IsTruthy(got.value) {
      return Reply(ParsedResponse(deps.codec, got.value.value), true, None);
    }
    var url := deps.apiUrl + key;
    var fetched := deps.fetch(url);
    if fetched.Err? {
      return Reply(ErrorText(fetched.error), false, Some(url));
    }
    var saved := client.Set(key, deps.codec.stringify(fetched.value), CacheTtlSeconds, now, faults.setError);
    if saved.Err? {
      return Reply(ErrorText(saved.error), false, Some(url));
    }
    reply := Reply(Body(fetched.value), false, Some(url));
  }
}
