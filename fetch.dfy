/**
 * `fetchWithCache` of services/api.ts: read the shared cache, and on a miss make the
 * request and store what it delivered.
 *
 * A request's result is a parameter: `Fail(reason)` when `fetch` or
 * `response.json()` throws, `Answered(ok, body)` for a parsed body together with the
 * response's `ok` flag. `Date.now()` is `now` where the cache is read and `later`
 * where entries are stored after the request.
 */
module Fetch {
  import opened Json
  import opened Cache

  datatype Outcome = Fail(reason: string) | Answered(ok: bool, body: Json)

  /** A 2xx response whose body parsed. */
  predicate Delivered(o: Outcome) {
    o.Answered? && o.ok
  }

  /** `fetchWithCache` answers from the cache: no forced refresh and a live, truthy payload. */
  predicate Hit(m: map<string, Entry>, key: string, now: int, forceRefresh: bool) {
    !forceRefresh && key in m && now <= m[key].expiry && Truthy(m[key].data)
  }

  /**
   * `fetchWithCache(url, cacheKey, cacheDuration, forceRefresh)`. A hit returns the
   * cached payload without a request. Otherwise the request is made; a delivered body
   * is stored and returned whatever it says, anything else returns `null` and stores
   * nothing. The cache is consulted (and an expired entry evicted) only without
   * `forceRefresh`.
   */
  method FetchWithCache(c: CacheManager, cacheKey: string, cacheDuration: int,
                        forceRefresh: bool, now: int, response: Outcome, later: int)
    returns (r: Json, networkCalled: bool)
    requires c.Valid()
    modifies c
    ensures c.Valid()
    ensures networkCalled <==> !Hit(old(c.cache), cacheKey, now, forceRefresh)
    ensures !networkCalled ==> r == old(c.cache)[cacheKey].data && c.State() == old(c.State())
    ensures networkCalled ==>
              var looked := if forceRefresh then old(c.State())
                            else AfterGet(old(c.State()), cacheKey, now);
              if Delivered(response) then
                r == response.body
                && c.State() == AfterSet(looked, cacheKey, response.body, cacheDuration, later)
              else
                r == JNull && c.State() == looked
  {
    if !forceRefresh {
      var cached := c.Get(cacheKey, now);
      if cached.Some? && Truthy(cached.value) {
        return cached.value, false;
      }
    }
    networkCalled := true;
    if !Delivered(response) {
      return JNull, networkCalled;
    }
    c.Set(cacheKey, response.body, cacheDuration, later);
    r := response.body;
  }

  /**
   * What `fetchWithCache` stored is answered from the cache, without a request,
   * exactly until its expiry passes — as long as the body is truthy; a falsy body is
   * stored but never a hit.
   */
  lemma StoredBodyIsHit(st: Store, key: string, body: Json, duration: int, later: int, t: int)
    ensures Hit(AfterSet(st, key, body, duration, later).cache, key, t, false)
        <==> t <= later + duration && Truthy(body)
  {
  }
}
