/** Token introspection with a bounded cache of active responses that is kept in order of use. */
module Introspection {
  import opened Basics

  /** Endpoint, client and token; the program hashes them into one string. */
  datatype Key = Key(url: string, clientId: string, token: string)

  datatype Audience = NoAudience | OneAudience(value: string) | ManyAudiences(values: seq<string>)

  /** An introspection response. `exp` is None when it is missing or not a number. */
  datatype Claims = Claims(active: bool, exp: Option<real>, aud: Audience, rest: nat)

  /** `expiresAt` is in milliseconds. */
  datatype Entry = Entry(claims: Claims, expiresAt: real)

  datatype Config = Config(url: string, clientId: string, audience: Audience, cacheTtl: real)

  // ---------------------------------------------------------------- the ordered map

  /** A `Map`: its entries, and its keys in insertion order. */
  datatype Cache = Cache(order: seq<Key>, entries: map<Key, Entry>)

  const EMPTY: Cache := Cache([], map[])

  function Without(order: seq<Key>, key: Key): seq<Key> {
    if order == [] then [] else if order[0] == key then order[1..] else [order[0]] + Without(order[1..], key)
  }

  /** `Map.delete`. */
  function Delete(cache: Cache, key: Key): Cache {
    if key in cache.entries then Cache(Without(cache.order, key), cache.entries - {key}) else cache
  }

  /** Deleting and setting again: the entry becomes the newest. */
  function Renew(cache: Cache, key: Key, entry: Entry): Cache {
    Cache(Delete(cache, key).order + [key], Delete(cache, key).entries[key := entry])
  }

  function Evict(cache: Cache, maxSize: int): Cache
    decreases |cache.order|
  {
    if |cache.order| <= maxSize || cache.order == [] then cache
    else Evict(Cache(cache.order[1..], cache.entries - {cache.order[0]}), maxSize)
  }

  function AfterGet(cache: Cache, key: Key, now: int): Cache {
    if key !in cache.entries then cache
    else if cache.entries[key].expiresAt <= now as real then Delete(cache, key)
    else Renew(cache, key, cache.entries[key])
  }

  function Hit(cache: Cache, key: Key, now: int): Option<Claims> {
    if key in cache.entries && cache.entries[key].expiresAt > now as real then Some(cache.entries[key].claims) else None
  }

  function AfterSet(cache: Cache, maxSize: int, key: Key, claims: Claims, ttl: real, now: int): Cache {
    if ttl <= 0.0 then cache else Evict(Renew(cache, key, Entry(claims, now as real + ttl * 1000.0)), maxSize)
  }

  class IntrospectionCache {
    const maxSize: int
    var order: seq<Key>
    var entries: map<Key, Entry>

    function Contents(): Cache
      reads this
    {
      Cache(order, entries)
    }

    constructor (maxSize: int)
      ensures Contents() == EMPTY && this.maxSize == maxSize
    {
      this.maxSize := maxSize;
      order, entries := [], map[];
    }

    method Remove(key: Key)
      modifies this
      ensures Contents() == Delete(old(Contents()), key)
    {
      if key in entries {
        order, entries := Without(order, key), entries - {key};
      }
    }

    method Append(key: Key, entry: Entry)
      requires key !in entries
      modifies this
      ensures order == old(order) + [key] && entries == old(entries)[key := entry]
    {
      order, entries := order + [key], entries[key := entry];
    }

    method Get(key: Key, now: int) returns (claims: Option<Claims>)
      modifies this
      ensures claims == Hit(old(Contents()), key, now)
      ensures Contents() == AfterGet(old(Contents()), key, now)
    {
      if key !in entries {
        return None;
      }
      var entry := entries[key];
      if entry.expiresAt <= now as real {
        Remove(key);
        return None;
      }
      Remove(key);
      Append(key, entry);
      return Some(entry.claims);
    }

    method Set(key: Key, claims: Claims, ttl: real, now: int)
      modifies this
      ensures Contents() == AfterSet(old(Contents()), maxSize, key, claims, ttl, now)
    {
      if ttl <= 0.0 {
        return;
      }
      Remove(key);
      Append(key, Entry(claims, now as real + ttl * 1000.0));
      ghost var goal := Evict(Contents(), maxSize);
      while |order| > maxSize
        invariant Evict(Contents(), maxSize) == goal
        decreases |order|
      {
        if order == [] {
          break;
        }
        order, entries := order[1..], entries - {order[0]};
      }
    }

    method Clear()
      modifies this
      ensures Contents() == EMPTY
    {
      order, entries := [], map[];
    }
  }

  // ---------------------------------------------------------------- one call

  function Wanted(audience: Audience): seq<string> {
    match audience
    case NoAudience => []
    case OneAudience(value) => [value]
    case ManyAudiences(values) => values
  }

  /** An empty string or an empty list configures nothing. */
  predicate HasAudience(audience: Audience) {
    match audience
    case NoAudience => false
    case OneAudience(value) => value != ""
    case ManyAudiences(values) => values != []
  }

  predicate MatchesAudience(expected: Audience, actual: Audience) {
    exists i | 0 <= i < |Wanted(expected)| :: Wanted(expected)[i] in Wanted(actual)
  }

  /** Whole seconds of a reading in milliseconds. */
  function Seconds(now: int): int { now / 1000 }

  predicate IsUsable(claims: Claims, config: Config, now: int) {
    && (HasAudience(config.audience) ==> MatchesAudience(config.audience, claims.aud))
    && (claims.exp.Some? ==> claims.exp.value > Seconds(now) as real)
  }

  function ComputeCacheTtl(configured: real, exp: Option<real>, seconds: int): real {
    match exp
    case None => configured
    case Some(end) => if configured <= end - seconds as real then configured else end - seconds as real
  }

  function CacheKey(token: string, config: Config): Key { Key(config.url, config.clientId, token) }

  /** The readings of the clock one call makes after the response arrived, first to last. The clock may go back. */
  datatype Readings = Readings(usable: int, ttl: int, stored: int, mapped: int)

  function Ttl(config: Config, claims: Claims, readings: Readings): real {
    ComputeCacheTtl(config.cacheTtl, claims.exp, Seconds(readings.ttl))
  }

  predicate Accepted(config: Config, claims: Claims, readings: Readings) {
    claims.active && IsUsable(claims, config, readings.usable)
  }

  function AfterResponse(cache: Cache, maxSize: int, token: string, config: Config, claims: Claims, readings: Readings): Cache {
    if Accepted(config, claims, readings)
    then AfterSet(cache, maxSize, CacheKey(token, config), claims, Ttl(config, claims, readings), readings.stored)
    else cache
  }

  function Mapped(claims: Claims, config: Config, now: int): Option<Claims> {
    if IsUsable(claims, config, now) then Some(claims) else None
  }

  /** The answer from the cache, when it has one. `looked` and `mapped` are readings of the clock. */
  method FromCache(cache: IntrospectionCache, token: string, config: Config, looked: int, mapped: int)
    returns (found: bool, result: Option<Claims>)
    modifies cache
    ensures found == Hit(old(cache.Contents()), CacheKey(token, config), looked).Some?
    ensures cache.Contents() == AfterGet(old(cache.Contents()), CacheKey(token, config), looked)
    ensures result == match Hit(old(cache.Contents()), CacheKey(token, config), looked)
                      case Some(claims) => Mapped(claims, config, mapped)
                      case None => None
  {
    var cached := cache.Get(CacheKey(token, config), looked);
    match cached {
      case Some(claims) => return true, Mapped(claims, config, mapped);
      case None => return false, None;
    }
  }

  /** The rest of the call once the endpoint has answered. */
  method FromResponse(cache: IntrospectionCache, token: string, config: Config, claims: Claims, readings: Readings)
    returns (result: Option<Claims>)
    modifies cache
    ensures cache.Contents() == AfterResponse(old(cache.Contents()), cache.maxSize, token, config, claims, readings)
    ensures result == if Accepted(config, claims, readings) then Mapped(claims, config, readings.mapped) else None
  {
    if !claims.active {
      return None;
    }
    if !IsUsable(claims, config, readings.usable) {
      return None;
    }
    var ttl := ComputeCacheTtl(config.cacheTtl, claims.exp, Seconds(readings.ttl));
    cache.Set(CacheKey(token, config), claims, ttl, readings.stored);
    return Mapped(claims, config, readings.mapped);
  }
}
