# Cache-aside character gateway — a verified model of `getRedis`

This project models the request handler `getRedis` of a small Express server.
The server sits in front of the Rick and Morty character API. It serves
`GET /character` and `GET /character/:id`, and for each request it does the following:

1. It derives a store key from the optional `id`. The key is `"character"` when
   `isNaN(id)` holds, which includes a missing id. Otherwise it is `"character/" + id`.
2. It reads that key from Redis. A truthy reply (present and non-empty) is
   parsed as JSON and sent.
3. On a miss it fetches `API_URL + key` from the upstream API. It writes the
   serialised data back under the same key with `EX 10`, then sends the data.
4. Any error thrown by the read, the parse, the upstream call or the write is
   caught, and its message becomes the response.

Modules, in dependency order:

- `Wrappers`: `Option` and `Result`.
- `JsNumber`: JavaScript's `isNaN` on a route parameter. It is a concrete model of
  the StringNumericLiteral grammar of ECMA-262, which `ToNumber` applies to strings. It covers
  trimming of white space and line terminators, signs, `Infinity`, fractions,
  exponents and `0b`/`0o`/`0x` literals, and it treats `undefined` as NaN.
- `Json`: JSON values, and the JSON library as a `Codec` of two functions. A
  number is the 64-bit pattern of the IEEE-754 double JavaScript holds.
  `ValidJson` picks out the values that survive `JSON.stringify` then `JSON.parse`
  unchanged: numbers are finite and not -0, and every object has no repeated
  member names and lists its members in JavaScript's property order (array-index
  names first, in ascending numeric order, then the other names). The proofs
  assume only `Lawful(codec)`: `parse(stringify(p)) == Ok(p)`
  for every valid `p`, and `parse("")` fails.
- `TaggedCodec`: a concrete codec with a prefix-tagged text format, and a proof
  that it is `Lawful`. So the assumption the proofs make can be met.
- `RedisStore`: the Redis server as a map from key to `Entry(value, expiresAt)`.
  An entry is live while `now < expiresAt`. The class `RedisClient` holds the
  map, and its `Get` and `Set` methods may fail with an error message.
- `CacheGateway`: `CacheKey`, the handler as a function `Serve`, and the method
  `GetRedis`. The method runs the handler's steps against a `RedisClient` and is
  proved equal to `Serve`.
- `GatewayProperties`: lemmas over `Serve`. They cover key derivation, each branch
  of one request, miss-then-hit within the TTL, and re-fetch after expiry.

The clock (`now`, in seconds), the errors thrown by `client.get` and `client.set`
(`Faults`), `API_URL`, and the upstream API (`fetch: string -> Result<Json, string>`)
are parameters of each request.

Consequences worth knowing, all proved:

- Every NaN id shares the collection key. So `/character/abc` is answered
  with the cached collection.
- `"Infinity"`, `"0x1F"` and `" 42 "` are numbers to `isNaN`. They get their own
  item keys, and `" 42 "` and `"42"` are different keys.
- A cached empty string counts as a miss.
- A failed write-back sends the error message, not the data that was just fetched.

## Model

| member | source | states |
|---|---|---|
| `JsNumber.TrimStart` | src/index.js:28 | the result is the input without its leading StrWhiteSpaceChar run, and nothing more is removed |
| `JsNumber.TrimEnd` | src/index.js:28 | the result is the input without its trailing StrWhiteSpaceChar run, and nothing more is removed |
| `JsNumber.DigitRun` | src/index.js:28 | the length of the longest prefix of decimal digits: every character before it is a digit, and the one at it is not |
| `JsNumber.DigitsAreNumeric` | src/index.js:28-30 | a non-empty string of decimal digits converts to a number, so `isNaN` is false for it |
| `JsNumber.LettersAreNaN` | src/index.js:28-30 | a non-empty ASCII-letter string converts to a number if and only if it is `"Infinity"` |
| `JsNumber.IsNumericString` | src/index.js:28 | `ToNumber` of a blank string is a number (0); a string without surrounding white space is a number exactly when it is a StringNumericLiteral |
| `JsNumber.IsNaN` | src/index.js:28 | `isNaN(undefined)` is true; `isNaN` of a blank string is false |
| `JsNumber.PaddingIsIgnored` | src/index.js:28 | for every string, white space added before and after it does not change whether it converts to a number |
| `JsNumber.HexLiteralsAreNumeric` | src/index.js:28 | `"0x"` followed by any non-empty run of hexadecimal digits is not NaN |
| `JsNumber.DigitsThenLettersAreNaN` | src/index.js:28 | non-empty decimal digits followed by non-empty ASCII letters that do not start with `x`/`X` are NaN |
| `Json.StringifyIsNonEmpty` | src/index.js:35-45 | under the round-trip law, serialised valid data is never `""`, so once written it reads back as truthy |
| `TaggedCodec.LawfulIsSatisfiable` | src/index.js:37-45 | the round-trip law assumed of `JSON.stringify`/`JSON.parse` holds for a concrete codec, so it is not contradictory |
| `RedisStore.Lookup` | src/index.js:33 | `GET` answers a value exactly when the key is present and live, and the value is the stored one |
| `RedisStore.SetEx` | src/index.js:43-47 | after `SET key value EX s` the key holds the value with expiry `now + s`, the key set gains only `key`, and every other entry is unchanged |
| `RedisStore.GetAfterSetEx` | src/index.js:43-47 | a key written with `EX s` at `t` reads back its value at every time before `t + s`, and as nil from `t + s` on |
| `RedisStore.SetExKeepsOthers` | src/index.js:43-47 | writing one key leaves every other key's reply unchanged at every time |
| `RedisStore.RedisClient.constructor` | src/index.js:10-16 | the client starts over the given store contents |
| `RedisStore.RedisClient.Get` | src/index.js:33 | `client.get` throws the injected error, or returns the live value of the key, or nil for a missing or expired key |
| `RedisStore.RedisClient.Set` | src/index.js:43-47 | `client.set` with `EX` throws and writes nothing, or returns `"OK"` with the key replaced by the value and the expiry `now + seconds` |
| `CacheGateway.CacheKey` | src/index.js:28-30 | the key is `"character"` exactly when `isNaN(id)`, and is otherwise `"character/" + id` |
| `CacheGateway.IsTruthy` | src/index.js:35 | a nil reply is falsy, and a string reply is truthy exactly when it is non-empty |
| `CacheGateway.ParsedResponse` | src/index.js:37 | when `JSON.parse` accepts the cached text, the value it parses to is sent; when it throws, its message is sent; under the round-trip law, the serialisation of a valid `p` sends `p` |
| `CacheGateway.Serve` | src/index.js:26-57 | only the request's key can change; it changes only after an upstream call whose data is sent, and then its expiry is `now + 10`; an upstream call is always to `API_URL + key`; a cached answer makes no upstream call and leaves the store unchanged |
| `CacheGateway.GetRedis` | src/index.js:26-57 | the handler's reply and the store it leaves are exactly those of `Serve` on the store before the request |
| `GatewayProperties.SameKeyIff` | src/index.js:28-30 | two requests share a cache entry if and only if both ids are NaN, or they are the same numeric id |
| `GatewayProperties.DigitIdKey` | src/index.js:28-30 | a non-empty all-digit id gets the key `"character/" + id` |
| `GatewayProperties.AlphabeticIdKey` | src/index.js:28-30 | an alphabetic id collapses onto the collection key, except `"Infinity"`, which gets its own item key |
| `GatewayProperties.ReadFailureAnswersWithMessage` | src/index.js:33-55 | a failing read sends its message; nothing is fetched or written |
| `GatewayProperties.AnyTruthyReplyIsHit` | src/index.js:33-38 | any live non-empty cached text is answered with what `JSON.parse` makes of it, with no upstream call and no store change |
| `GatewayProperties.CorruptCacheAnswersWithMessage` | src/index.js:35-55 | cached text that `JSON.parse` rejects is answered with the parse error's message, with no upstream call and no store change |
| `GatewayProperties.HitServesCachedValue` | src/index.js:33-38 | a live cached serialisation of a valid `p` sends `p`, makes no upstream call and leaves the store unchanged |
| `GatewayProperties.EmptyValueIsMiss` | src/index.js:35-41 | a cached `""` is falsy: the request is not served from cache and goes upstream to `API_URL + key` |
| `GatewayProperties.MissFetchesAndStores` | src/index.js:41-52 | a miss with no failures stores `stringify(data)` under the key with expiry `now + 10`, sends the data and queries `API_URL + key` |
| `GatewayProperties.UpstreamFailureWritesNothing` | src/index.js:41-55 | an upstream failure writes nothing and sends the error's message |
| `GatewayProperties.WriteFailureLosesFetchedData` | src/index.js:43-55 | when the write-back fails, the store is unchanged and the response is the error's message, not the fetched data |
| `GatewayProperties.OtherKeysUnchanged` | src/index.js:43-47 | a request never changes what any other key reads at any time |
| `GatewayProperties.MissThenHit` | src/index.js:33-52 | after a successful miss at `t`, a request for the same key at any time in `[t, t + 10)` whose read succeeds is served the same data from cache, with no upstream call and no store change |
| `GatewayProperties.ExpiryRefetches` | src/index.js:33-47 | after a successful miss at `t` and no other write, from `t + 10` on the key reads as nil and the next request for it goes upstream again |

## Left out

- Express setup, route registration, the `response-time` middleware, `main` and `app.listen` (src/index.js:1-7, 18-24, 59-65): framework plumbing. The two routes appear only as `id` being absent or present.
- Redis connection and environment loading (src/index.js:3-5, 10-16, 60): network I/O and configuration. `API_URL` is a parameter, and connection failures are the injected `Faults`.
- The axios transport and HTTP status codes (src/index.js:41): the upstream is an abstract function from URL to data or error message.
- JSON encoding internals (src/index.js:37, 45): `JSON.parse` and `JSON.stringify` are abstract. Properties that need them assume the round-trip law `Lawful`. It is a precondition, not something proved.
- `console.log` (src/index.js:36, 49, 54): side effects only. `servedFromCache` records the branch that logs "using cached data".
- How `res.send` renders a value (content type, status 200 also for error text): not modelled. `Response` records only what is sent.
- Concurrent requests and the cache stampede: the model is sequential, and each request is one atomic step over the store.
- Redis timing: the clock counts whole seconds and a key is live while `now < expiresAt`. Redis's millisecond clock, its exact rule at the expiry instant, and its deletion of expired keys are not modelled.
- The time a request takes: one instant `now` serves both the `GET` (src/index.js:33) and the `SET … EX 10` (src/index.js:43-47). In the program the `SET` runs after the upstream round trip, so its 10 seconds count from the write, which is later than the request; the model dates the expiry from the request.
- A `client.set` that fails is modelled as not applied. A write that reaches the server but whose reply is lost is not modelled.
- Redis replies other than string or nil (a `WRONGTYPE` error, for instance) are not modelled.
- JavaScript strings are UTF-16 code units. Here a `char` is a Unicode scalar value, so lone surrogates in an id are not modelled.
- JSON numbers are IEEE-754 bit patterns with no arithmetic. Payloads are only passed through, so no property needs arithmetic on them.
- Payloads outside `ValidJson` (NaN, the infinities, -0, repeated member names, array-index member names listed out of property order) do not survive `JSON.stringify` then `JSON.parse` unchanged. The properties that send cached data back as `p` (`HitServesCachedValue`, `MissThenHit`, `StringifyIsNonEmpty`, the third clause of `ParsedResponse`) are stated for valid `p` only. Upstream data holding `-0` or a number literal too large for a double is such a payload.
- `TaggedCodec` is not the format of `JSON.stringify`. It only shows that the round-trip law can be met.
- Rate limiting: src/index.js contains no rate limiter, so nothing of it is modelled.
