/**
 * The Redis server reached through the shared client: a map from keys to
 * string values, each with an optional expiry instant. The server removes a
 * key once its expiry has passed; here an expired entry simply reads as
 * absent. Time is an integer number of seconds on the server's clock.
 */
module RedisStore {
  import opened Wrappers

  /** A stored string and the instant from which it no longer exists (None: no TTL). */
  datatype Entry = Entry(value: string, expiresAt: Option<int>)

  /** An entry exists at `now` when it has no expiry or its expiry is still ahead. */
  predicate Live(e: Entry, now: int) {
    e.expiresAt.None? || now < e.expiresAt.value
  }

  /** The reply of `GET key` at `now`: the value, or nil for a missing or expired key. */
  function Lookup(entries: map<string, Entry>, key: string, now: int): (r: Option<string>)
    ensures r.Some? <==> key in entries && Live(entries[key], now)
    ensures r.Some? ==> r.value == entries[key].value
  {
    if key in entries && Live(entries[key], now) then Some(entries[key].value) else None
  }

  /** The store after `SET key value EX seconds` at `now`: value and TTL are both replaced. */
  function SetEx(entries: map<string, Entry>, key: string, value: string, seconds: int, now: int): (r: map<string, Entry>)
    ensures r.Keys == entries.Keys + {key}
    ensures r[key] == Entry(value, Some(now + seconds))
    ensures forall k | k in entries && k != key :: r[k] == entries[k]
  {
    entries[key := Entry(value, Some(now + seconds))]
  }

  /** A key written with `EX seconds` reads back its value until `seconds` have passed, and nil from then on. */
  lemma GetAfterSetEx(entries: map<string, Entry>, key: string, value: string, seconds: int, now: int, later: int)
    requires now <= later
    ensures Lookup(SetEx(entries, key, value, seconds, now), key, later) == if later < now + seconds then Some(value) else None
  {
  }

  /** A write leaves every other key as it was. */
  lemma SetExKeepsOthers(entries: map<string, Entry>, key: string, value: string, seconds: int, now: int, other: string, at: int)
    requires other != key
    ensures Lookup(SetEx(entries, key, value, seconds, now), other, at) == Lookup(entries, other, at)
  {
  }

  /** The connection created with `createClient`; each command may fail with an error message. */
  class RedisClient {
    var entries: map<string, Entry>

    constructor (initial: map<string, Entry>)
      ensures entries == initial
    {
      entries := initial;
    }

    /** `client.get(key)`: the reply, or the message of the error it throws. */
    method Get(key: string, now: int, failure: Option<string>) returns (r: Result<Option<string>, string>)
      ensures failure.Some? ==> r == Err(failure.value)
      ensures failure.None? ==> r == Ok(Lookup(entries, key, now))
    {
      if failure.Some? {
        return Err(failure.value);
      }
      r := Ok(Lookup(entries, key, now));
    }

    /** `client.set(key, value, { EX: seconds })`: "OK" and the write, or an error and no write. */
    method Set(key: string, value: string, seconds: int, now: int, failure: Option<string>) returns (r: Result<string, string>)
      requires seconds > 0
      modifies this
      ensures failure.Some? ==> r == Err(failure.value) && entries == old(entries)
      ensures failure.None? ==> r == Ok("OK") && entries == SetEx(old(entries), key, value, seconds, now)
    {
      if failure.Some? {
        return Err(failure.value);
      }
      entries := SetEx(entries, key, value, seconds, now);
      r := Ok("OK");
    }
  }
}
