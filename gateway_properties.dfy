/**
 * What `getRedis` guarantees, stated over `Serve`: how ids map to keys, the
 * outcome of each branch, and how two requests for one key interact through
 * the store's expiry.
 */
module GatewayProperties {
  import opened Wrappers
  import opened JsNumber
  import opened Json
  import opened RedisStore
  import opened CacheGateway

  // ----- Key derivation -----

  /** Two requests share a cache entry exactly when both ids are NaN, or both are the same numeric id. */
  lemma SameKeyIff(a: Option<string>, b: Option<string>)
    ensures CacheKey(a) == CacheKey(b) <==> (IsNaN(a) && IsNaN(b)) || (!IsNaN(a) && a == b)
  {
    if !IsNaN(a) && !IsNaN(b) && CacheKey(a) == CacheKey(b) {
      var n := |CollectionKey + "/"|;
      assert a.value == CacheKey(a)[n..];
      assert b.value == CacheKey(b)[n..];
    }
  }

  /** A non-empty id of decimal digits gets its own item key. */
  lemma DigitIdKey(s: string)
    requires s != [] && AllDecimalDigits(s)
    ensures CacheKey(Some(s)) == CollectionKey + "/" + s
  {
    DigitsAreNumeric(s);
  }

  /** An alphabetic id falls back to the collection key, except "Infinity", which is numeric. */
  lemma AlphabeticIdKey(s: string)
    requires s != [] && AllAsciiLetters(s)
    ensures CacheKey(Some(s)) == if s == "Infinity" then CollectionKey + "/" + s else CacheKey(None)
  {
    LettersAreNaN(s);
  }

  // ----- One request -----

  /** A failing `client.get` answers with its message; nothing is fetched or written. */
  lemma ReadFailureAnswersWithMessage(entries: map<string, Entry>, deps: Collaborators, id: Option<string>, now: int, faults: Faults)
    requires faults.getError.Some?
    ensures Serve(entries, deps, id, now, faults) == (entries, Reply(ErrorText(faults.getError.value), false, None))
  {
  }

  /**
   * Any live, non-empty cached text takes the cache branch: it is sent as
   * `JSON.parse` reads it, upstream is not called and the store is unchanged.
   */
  lemma AnyTruthyReplyIsHit(entries: map<string, Entry>, deps: Collaborators, id: Option<string>, now: int, faults: Faults, v: string)
    requires faults.getError.None?
    requires Lookup(entries, CacheKey(id), now) == Some(v) && v != ""
    ensures Serve(entries, deps, id, now, faults) == (entries, Reply(ParsedResponse(deps.codec, v), true, None))
  {
  }

  /** Cached text that `JSON.parse` rejects is answered with the SyntaxError's message, still without an upstream call. */
  lemma CorruptCacheAnswersWithMessage(entries: map<string, Entry>, deps: Collaborators, id: Option<string>, now: int, faults: Faults,
                                       v: string, m: string)
    requires faults.getError.None?
    requires Lookup(entries, CacheKey(id), now) == Some(v) && v != ""
    requires deps.codec.parse(v) == Err(m)
    ensures Serve(entries, deps, id, now, faults) == (entries, Reply(ErrorText(m), true, None))
  {
  }

  /** A live cached serialisation of `p` is sent as `p`; upstream is not called and the store is unchanged. */
  lemma HitServesCachedValue(entries: map<string, Entry>, deps: Collaborators, id: Option<string>, now: int, faults: Faults, p: Json)
    requires faults.getError.None?
    requires Lawful(deps.codec) && ValidJson(p)
    requires Lookup(entries, CacheKey(id), now) == Some(deps.codec.stringify(p))
    ensures Serve(entries, deps, id, now, faults) == (entries, Reply(Body(p), true, None))
  {
    StringifyIsNonEmpty(deps.codec, p);
  }

  /** An empty cached string is falsy: the request goes upstream as if the key were absent. */
  lemma EmptyValueIsMiss(entries: map<string, Entry>, deps: Collaborators, id: Option<string>, now: int, faults: Faults)
    requires faults.getError.None?
    requires Lookup(entries, CacheKey(id), now) == Some("")
    ensures var out := Serve(entries, deps, id, now, faults);
      !out.1.servedFromCache && out.1.upstreamUrl == Some(deps.apiUrl + CacheKey(id))
  {
  }

  /** A miss fetches API_URL + key, stores the serialised data for 10 seconds and sends the data. */
  lemma MissFetchesAndStores(entries: map<string, Entry>, deps: Collaborators, id: Option<string>, now: int, p: Json)
    requires !IsTruthy(Lookup(entries, CacheKey(id), now))
    requires deps.fetch(deps.apiUrl + CacheKey(id)) == Ok(p)
    ensures Serve(entries, deps, id, now, Faults(None, None))
         == (entries[CacheKey(id) := Entry(deps.codec.stringify(p), Some(now + CacheTtlSeconds))],
             Reply(Body(p), false, Some(deps.apiUrl + CacheKey(id))))
  {
  }

  /** A failed upstream call writes nothing and answers with the error's message. */
  lemma UpstreamFailureWritesNothing(entries: map<string, Entry>, deps: Collaborators, id: Option<string>, now: int, faults: Faults, m: string)
    requires faults.getError.None?
    requires !IsTruthy(Lookup(entries, CacheKey(id), now))
    requires deps.fetch(deps.apiUrl + CacheKey(id)) == Err(m)
    ensures Serve(entries, deps, id, now, faults) == (entries, Reply(ErrorText(m), false, Some(deps.apiUrl + CacheKey(id))))
  {
  }

  /** A failed write-back replaces the fetched data by the error's message in the response. */
  lemma WriteFailureLosesFetchedData(entries: map<string, Entry>, deps: Collaborators, id: Option<string>, now: int, p: Json, m: string)
    requires !IsTruthy(Lookup(entries, CacheKey(id), now))
    requires deps.fetch(deps.apiUrl + CacheKey(id)) == Ok(p)
    ensures var out := Serve(entries, deps, id, now, Faults(None, Some(m)));
      out.0 == entries && out.1.response == ErrorText(m) && out.1.response != Body(p)
  {
  }

  /** A request never changes how any other key reads, at any time. */
  lemma OtherKeysUnchanged(entries: map<string, Entry>, deps: Collaborators, id: Option<string>, now: int, faults: Faults, k: string, at: int)
    requires k != CacheKey(id)
    ensures Lookup(Serve(entries, deps, id, now, faults).0, k, at) == Lookup(entries, k, at)
  {
    var after := Serve(entries, deps, id, now, faults).0;
    var key := CacheKey(id);
    assert k in after <==> k in after - {key};
    assert k in entries <==> k in entries - {key};
    if k in after {
      assert after[k] == (after - {key})[k] == (entries - {key})[k] == entries[k];
    }
  }

  // ----- Two requests for one key -----

  /**
   * After a successful miss at `t`, any request for the same key before
   * `t + 10` whose read succeeds gets the fetched data from the cache, makes
   * no upstream call and leaves the store as it is.
   */
  lemma MissThenHit(entries: map<string, Entry>, deps: Collaborators, id: Option<string>, t: int, p: Json,
                    id2: Option<string>, t2: int, faults2: Faults)
    requires Lawful(deps.codec) && ValidJson(p)
    requires !IsTruthy(Lookup(entries, CacheKey(id), t))
    requires deps.fetch(deps.apiUrl + CacheKey(id)) == Ok(p)
    requires CacheKey(id2) == CacheKey(id) && t <= t2 < t + CacheTtlSeconds
    requires faults2.getError.None?
    ensures var first := Serve(entries, deps, id, t, Faults(None, None));
      && first.1.response == Body(p)
      && Serve(first.0, deps, id2, t2, faults2) == (first.0, Reply(Body(p), true, None))
  {
    var key := CacheKey(id);
    MissFetchesAndStores(entries, deps, id, t, p);
    var after := Serve(entries, deps, id, t, Faults(None, None)).0;
    GetAfterSetEx(entries, key, deps.codec.stringify(p), CacheTtlSeconds, t, t2);
    assert Lookup(after, key, t2) == Some(deps.codec.stringify(p));
    HitServesCachedValue(after, deps, id2, t2, faults2, p);
  }

  /**
   * After a successful miss at `t` and no other write, from `t + 10` on the
   * key reads as absent and the next request for it goes upstream again.
   */
  lemma ExpiryRefetches(entries: map<string, Entry>, deps: Collaborators, id: Option<string>, t: int, p: Json,
                        id2: Option<string>, t2: int, faults2: Faults)
    requires !IsTruthy(Lookup(entries, CacheKey(id), t))
    requires deps.fetch(deps.apiUrl + CacheKey(id)) == Ok(p)
    requires CacheKey(id2) == CacheKey(id) && t + CacheTtlSeconds <= t2
    requires faults2.getError.None?
    ensures var after := Serve(entries, deps, id, t, Faults(None, None)).0;
      && Lookup(after, CacheKey(id), t2) == None
      && !Serve(after, deps, id2, t2, faults2).1.servedFromCache
      && Serve(after, deps, id2, t2, faults2).1.upstreamUrl == Some(deps.apiUrl + CacheKey(id))
  {
    var key := CacheKey(id);
    MissFetchesAndStores(entries, deps, id, t, p);
    GetAfterSetEx(entries, key, deps.codec.stringify(p), CacheTtlSeconds, t, t2);
  }
}
