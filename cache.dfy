/**
 * The weather service's time-to-live cache and the lookup-or-fetch flow of
 * `getWeather`. The clock is a parameter (milliseconds, as `Date.now()`
 * gives them); the HTTP request is replaced by its outcome, passed in.
 */
module WeatherCache {
  import opened Wrappers
  import opened Text
  import opened WeatherService

  /** Fifteen minutes, in milliseconds. */
  const CacheDuration: int := 15 * 60 * 1000

  datatype Entry<T> = Entry(data: T, timestamp: int)

  /** An entry younger than the cache duration (a clock that went back counts as young). */
  predicate IsFresh<T>(e: Entry<T>, now: int) {
    now - e.timestamp < CacheDuration
  }

  /** What `getFromCache` returns: the data of a fresh entry, otherwise nothing. */
  function Lookup<T>(cache: map<string, Entry<T>>, key: string, now: int): (r: Option<T>)
    ensures r.Some? <==> key in cache && IsFresh(cache[key], now)
    ensures r.Some? ==> r.value == cache[key].data
  {
    if key in cache && IsFresh(cache[key], now) then Some(cache[key].data) else None
  }

  /** The cache after `getFromCache`: a missing or stale key is deleted, nothing else changes. */
  function AfterLookup<T>(cache: map<string, Entry<T>>, key: string, now: int): (m: map<string, Entry<T>>)
    ensures key in m <==> Lookup(cache, key, now).Some?
    ensures key in m ==> m[key] == cache[key]
    ensures forall k :: k != key ==> (k in m <==> k in cache)
    ensures forall k :: k != key && k in m ==> m[k] == cache[k]
  {
    if Lookup(cache, key, now).Some? then cache else cache - {key}
  }

  /** The cache after `setToCache(key, data)` at time `now`. */
  function Stored<T>(cache: map<string, Entry<T>>, key: string, data: T, now: int): (m: map<string, Entry<T>>)
    ensures key in m && m[key] == Entry(data, now)
    ensures forall k :: k != key ==> (k in m <==> k in cache)
    ensures forall k :: k != key && k in m ==> m[k] == cache[k]
  {
    cache[key := Entry(data, now)]
  }

  /** Data stored at `t0` is returned by a lookup less than fifteen minutes later, which keeps it. */
  lemma StoreThenLookup<T>(cache: map<string, Entry<T>>, key: string, data: T, t0: int, now: int)
    requires now - t0 < CacheDuration
    ensures Lookup(Stored(cache, key, data, t0), key, now) == Some(data)
    ensures AfterLookup(Stored(cache, key, data, t0), key, now) == Stored(cache, key, data, t0)
  {
  }

  /** Fifteen minutes or more after storing, the lookup misses and removes only that key. */
  lemma StoreThenExpire<T>(cache: map<string, Entry<T>>, key: string, data: T, t0: int, now: int)
    requires now - t0 >= CacheDuration
    ensures Lookup(Stored(cache, key, data, t0), key, now) == None
    ensures AfterLookup(Stored(cache, key, data, t0), key, now) == cache - {key}
  {
    var m := AfterLookup(Stored(cache, key, data, t0), key, now);
    assert m.Keys == (cache - {key}).Keys;
  }

  /** Storing under one key does not change what a lookup of another key sees. */
  lemma StoreKeepsOtherKeys<T>(cache: map<string, Entry<T>>, key: string, other: string, data: T, t0: int, now: int)
    requires other != key
    ensures Lookup(Stored(cache, key, data, t0), other, now) == Lookup(cache, other, now)
  {
  }

  /** `weather_` followed by the lower-cased city name. */
  function CacheKey(cityName: string): (key: string)
    ensures |key| == 8 + |cityName|
    ensures key[..8] == "weather_" && key[8..] == ToLower(cityName)
  {
    "weather_" + ToLower(cityName)
  }

  /** Two names share a cache entry exactly when they are equal ignoring case. */
  lemma CacheKeyIgnoresCase(a: string, b: string)
    ensures CacheKey(a) == CacheKey(b) <==> SameIgnoringCase(a, b)
  {
    if CacheKey(a) == CacheKey(b) {
      assert ToLower(a) == CacheKey(a)[8..];
    }
  }

  /**
   * The record `getWeather` builds on a cache miss: the enhanced response for
   * a known city whose request succeeded, the mock record otherwise.
   */
  function Fetched(cityName: string, response: Option<RawWeather>): (r: Report)
    ensures r.name == Capitalized(cityName)
    ensures CoordsOf(ToLower(cityName)).None? || response.None? ==> r == MockReport(cityName)
    ensures CoordsOf(ToLower(cityName)).Some? && response.Some? ==> r == Enhance(cityName, response.value)
  {
    if CoordsOf(ToLower(cityName)).Some? && response.Some? then Enhance(cityName, response.value)
    else MockReport(cityName)
  }

  /** Storing over a key that the failed lookup deleted gives the same cache as storing directly. */
  lemma StoreAfterMiss<T>(cache: map<string, Entry<T>>, key: string, e: Entry<T>)
    ensures (cache - {key})[key := e] == cache[key := e]
  {
    var a, b := (cache - {key})[key := e], cache[key := e];
    assert a.Keys == b.Keys;
  }

  class Service {
    var cache: map<string, Entry<Report>>

    constructor ()
      ensures cache == map[]
    {
      cache := map[];
    }

    method GetFromCache(key: string, now: int) returns (r: Option<Report>)
      modifies this
      ensures r == Lookup(old(cache), key, now)
      ensures cache == AfterLookup(old(cache), key, now)
    {
      if key in cache && now - cache[key].timestamp < CacheDuration {
        return Some(cache[key].data);
      }
      cache := cache - {key};
      return None;
    }

    method SetToCache(key: string, data: Report, now: int)
      modifies this
      ensures cache == Stored(old(cache), key, data, now)
    {
      cache := cache[key := Entry(data, now)];
    }

    /**
     * `getWeather(cityName)`: a fresh cached record is returned as it is;
     * otherwise the record is built, stored under the city's key at
     * `storedAt` (the clock after the request) and returned.
     */
    method GetWeather(cityName: string, now: int, storedAt: int, response: Option<RawWeather>) returns (r: Report)
      modifies this
      ensures Lookup(old(cache), CacheKey(cityName), now).Some? ==>
        r == Lookup(old(cache), CacheKey(cityName), now).value && cache == old(cache)
      ensures Lookup(old(cache), CacheKey(cityName), now).None? ==>
        r == Fetched(cityName, response) && cache == Stored(old(cache), CacheKey(cityName), r, storedAt)
    {
      var city := ToLower(cityName);
      var key := CacheKey(cityName);
      var cached := GetFromCache(key, now);
      if cached.Some? {
        return cached.value;
      }
      var coords := CoordsOf(city);
      if coords.Some? && response.Some? {
        r := Enhance(cityName, response.value);
      } else {
        r := MockReport(cityName);
      }
      SetToCache(key, r, storedAt);
      StoreAfterMiss(old(cache), key, Entry(r, storedAt));
    }
  }
}
