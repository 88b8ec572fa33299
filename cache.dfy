/**
 * The client-side response cache (`CacheManager` in services/api.ts): an in-memory
 * map from cache key to entry with a per-entry expiry time, lazy eviction on read,
 * exact-key and substring invalidation, a full clear and a diagnostic listing.
 *
 * `Date.now()` is a parameter `now` (milliseconds) of every operation that reads the clock.
 */
module Cache {
  import opened Wrappers
  import opened Json
  import opened Text

  /** `CacheEntry<T>`: the payload, when it was stored and when it stops being valid. */
  datatype Entry = Entry(data: Json, timestamp: int, expiry: int)

  // `CACHE_DURATION`, in milliseconds
  const StatusDuration: int := 30 * 1000
  const DashboardDuration: int := 2 * 60 * 1000
  const ChartsDuration: int := 5 * 60 * 1000
  const AnomaliesDuration: int := 10 * 60 * 1000
  const TrainingResultsDuration: int := 60 * 60 * 1000
  const DatasetDuration: int := 15 * 60 * 1000
  const DatasetSummaryDuration: int := 30 * 60 * 1000

  /** An entry read at `now` has expired when `now` is strictly past its expiry. */
  predicate Expired(m: map<string, Entry>, key: string, now: int) {
    key in m && now > m[key].expiry
  }

  /** The map after a read of `key` at `now`: an expired entry for `key` is dropped. */
  ghost function Evict(m: map<string, Entry>, key: string, now: int): map<string, Entry> {
    if Expired(m, key, now) then m - {key} else m
  }

  /** The entries whose key does not contain `pattern`. */
  ghost function RemoveMatching(m: map<string, Entry>, pattern: string): map<string, Entry> {
    map k | k in m && !IsSubstring(pattern, k) :: m[k]
  }

  // ----- key order ------------------------------------------------------------------

  /** No key is listed twice. */
  predicate Distinct(s: seq<string>) {
    s == [] || (s[0] !in s[1..] && Distinct(s[1..]))
  }

  /** The key at `i` of a distinct list occurs neither before nor after `i`. */
  lemma {:induction false} DistinctAt(s: seq<string>, i: int)
    requires Distinct(s) && 0 <= i < |s|
    ensures s[i] !in s[..i] && s[i] !in s[i + 1..]
  {
    if i > 0 {
      DistinctAt(s[1..], i - 1);
      assert s[1..][..i - 1] == s[1..i];
      assert s[..i] == [s[0]] + s[1..i];
      assert s[1..][i..] == s[i + 1..];
      assert s[i] == s[1..][i - 1];
    }
  }

  /** Appending a key that is not yet listed keeps the list distinct. */
  lemma {:induction false} DistinctSnoc(s: seq<string>, k: string)
    requires Distinct(s) && k !in s
    ensures Distinct(s + [k])
  {
    if s != [] {
      assert (s + [k])[1..] == s[1..] + [k];
      assert s[0] != k;
      DistinctSnoc(s[1..], k);
    }
  }

  /** `s` with `k` deleted, the rest in their order. */
  function Without(s: seq<string>, k: string): (r: seq<string>)
    ensures forall x :: x in r <==> x in s && x != k
    ensures |r| <= |s|
  {
    if s == [] then [] else (if s[0] == k then [] else [s[0]]) + Without(s[1..], k)
  }

  /** `s` with every key that contains `pattern` deleted, the rest in their order. */
  ghost function Unmatched(s: seq<string>, pattern: string): seq<string>
  {
    if s == [] then []
    else Unmatched(s[..|s| - 1], pattern)
         + (if IsSubstring(pattern, s[|s| - 1]) then [] else [s[|s| - 1]])
  }

  /** `Unmatched` keeps exactly the keys that do not contain the pattern. */
  lemma {:induction false} UnmatchedMembers(s: seq<string>, pattern: string)
    ensures forall x :: x in Unmatched(s, pattern) <==> x in s && !IsSubstring(pattern, x)
  {
    if s != [] {
      UnmatchedMembers(s[..|s| - 1], pattern);
      assert s == s[..|s| - 1] + [s[|s| - 1]];
    }
  }

  lemma {:induction false} WithoutAbsent(s: seq<string>, k: string)
    requires k !in s
    ensures Without(s, k) == s
  {
    if s != [] {
      WithoutAbsent(s[1..], k);
    }
  }

  lemma {:induction false} WithoutConcat(a: seq<string>, b: seq<string>, k: string)
    ensures Without(a + b, k) == Without(a, k) + Without(b, k)
  {
    if a != [] {
      assert (a + b)[1..] == a[1..] + b;
      WithoutConcat(a[1..], b, k);
    } else {
      assert a + b == b;
    }
  }

  lemma {:induction false} WithoutDistinct(s: seq<string>, k: string)
    requires Distinct(s)
    ensures Distinct(Without(s, k))
  {
    if s != [] {
      WithoutDistinct(s[1..], k);
      var t := Without(s[1..], k);
      assert s[0] !in t;
      if s[0] != k {
        assert ([s[0]] + t)[1..] == t;
      } else {
        assert [] + t == t;
      }
    }
  }

  /** Deleting the same key twice is deleting it once. */
  lemma WithoutIdempotent(s: seq<string>, k: string)
    ensures Without(Without(s, k), k) == Without(s, k)
  {
    WithoutAbsent(Without(s, k), k);
  }

  /** Deleting the head of the not-yet-visited part while iterating. */
  lemma WithoutAtCursor(done: seq<string>, rest: seq<string>)
    requires rest != [] && rest[0] !in done && rest[0] !in rest[1..]
    ensures Without(done + rest, rest[0]) == done + rest[1..]
  {
    var key, tail := rest[0], rest[1..];
    WithoutConcat(done, rest, key);
    WithoutAbsent(done, key);
    WithoutAbsent(tail, key);
    assert Without(rest, key) == Without(tail, key);
  }

  /** One step of the walk over distinct `keys`: the key at `i` matches and is deleted. */
  lemma DropMatchedAt(keys: seq<string>, i: int, pattern: string)
    requires Distinct(keys) && 0 <= i < |keys| && Includes(keys[i], pattern)
    ensures Without(Unmatched(keys[..i], pattern) + keys[i..], keys[i])
         == Unmatched(keys[..i + 1], pattern) + keys[i + 1..]
  {
    IncludesIsSubstring(keys[i], pattern);
    assert keys[..i + 1][..i] == keys[..i];
    UnmatchedMembers(keys[..i], pattern);
    DistinctAt(keys, i);
    WithoutAtCursor(Unmatched(keys[..i], pattern), keys[i..]);
  }

  /** One step of the walk: the key at `i` does not match and is kept. */
  lemma KeepUnmatchedAt(keys: seq<string>, i: int, pattern: string)
    requires 0 <= i < |keys| && !Includes(keys[i], pattern)
    ensures Unmatched(keys[..i], pattern) + keys[i..]
         == Unmatched(keys[..i + 1], pattern) + keys[i + 1..]
  {
    IncludesIsSubstring(keys[i], pattern);
    assert keys[..i + 1][..i] == keys[..i];
    assert keys[i..] == [keys[i]] + keys[i + 1..];
  }

  /** A list of distinct keys has as many elements as the set of its keys. */
  lemma {:induction false} DistinctCard(s: seq<string>)
    requires Distinct(s)
    ensures |set x | x in s| == |s|
  {
    if s != [] {
      DistinctCard(s[1..]);
      assert s[0] !in s[1..];
      assert (set x | x in s) == (set x | x in s[1..]) + {s[0]};
    }
  }

  // ----- what the family invalidations remove ---------------------------------------

  /** Invalidating a pattern a second time removes nothing more. */
  lemma RemoveMatchingIdempotent(m: map<string, Entry>, p: string)
    ensures RemoveMatching(RemoveMatching(m, p), p) == RemoveMatching(m, p)
  {
  }

  /** Every key contains the empty pattern, so `invalidatePattern("")` empties the cache. */
  lemma RemoveMatchingEmptyPattern(m: map<string, Entry>)
    ensures RemoveMatching(m, "") == map[]
  {
    forall k | k in m
      ensures IsSubstring("", k)
    {
      EmptyIsSubstring(k);
    }
  }

  /**
   * After invalidating `p`, invalidating a pattern `q` that contains `p` removes
   * nothing more: every key containing `q` contains `p` and is already gone.
   */
  lemma RemoveMatchingAbsorbs(m: map<string, Entry>, p: string, q: string)
    requires IsSubstring(p, q)
    ensures RemoveMatching(RemoveMatching(m, p), q) == RemoveMatching(m, p)
  {
    forall k | k in m && IsSubstring(q, k)
      ensures IsSubstring(p, k)
    {
      SubstringTransitive(p, q, k);
    }
  }

  /** The key list after the walk of `invalidatePattern` has visited the first `i` keys. */
  ghost function SweptKeys(keys: seq<string>, i: int, pattern: string): seq<string>
    requires 0 <= i <= |keys|
    decreases i
  {
    if i == 0 then keys
    else
      var s := SweptKeys(keys, i - 1, pattern);
      if Includes(keys[i - 1], pattern) then Without(s, keys[i - 1]) else s
  }

  /** The entries after the walk has visited the first `i` keys. */
  ghost function SweptEntries(m: map<string, Entry>, keys: seq<string>, i: int,
                              pattern: string): map<string, Entry>
    requires 0 <= i <= |keys|
    decreases i
  {
    if i == 0 then m
    else
      var m' := SweptEntries(m, keys, i - 1, pattern);
      if Includes(keys[i - 1], pattern) then m' - {keys[i - 1]} else m'
  }

  /**
   * Halfway through the walk over distinct `keys`, the visited keys that do not
   * match are still listed, in their order, ahead of the keys not yet visited.
   */
  lemma {:induction false} SweptKeysShape(keys: seq<string>, i: int, pattern: string)
    requires Distinct(keys) && 0 <= i <= |keys|
    ensures SweptKeys(keys, i, pattern) == Unmatched(keys[..i], pattern) + keys[i..]
    ensures Distinct(SweptKeys(keys, i, pattern))
    decreases i
  {
    if i == 0 {
      assert keys[..0] == [] && keys[0..] == keys;
    } else {
      SweptKeysShape(keys, i - 1, pattern);
      var s := SweptKeys(keys, i - 1, pattern);
      if Includes(keys[i - 1], pattern) {
        DropMatchedAt(keys, i - 1, pattern);
        WithoutDistinct(s, keys[i - 1]);
      } else {
        KeepUnmatchedAt(keys, i - 1, pattern);
      }
    }
  }

  /**
   * Throughout the walk over the keys of `m`, the entries stay in step with the key
   * list and keep their old values.
   */
  lemma {:induction false} SweptEntriesInStep(m: map<string, Entry>, keys: seq<string>, i: int,
                                              pattern: string)
    requires forall k :: k in m <==> k in keys
    requires 0 <= i <= |keys|
    ensures forall k :: k in SweptEntries(m, keys, i, pattern) <==> k in SweptKeys(keys, i, pattern)
    ensures forall k :: k in SweptEntries(m, keys, i, pattern) ==>
              k in m && SweptEntries(m, keys, i, pattern)[k] == m[k]
    decreases i
  {
    if i > 0 {
      SweptEntriesInStep(m, keys, i - 1, pattern);
    }
  }

  /**
   * A map whose keys are those listed by `Unmatched(keys, pattern)`, each with its old
   * entry, is what `RemoveMatching` leaves of the map that `keys` listed.
   */
  lemma KeptEntries(m: map<string, Entry>, keys: seq<string>, m': map<string, Entry>,
                    order: seq<string>, pattern: string)
    requires forall k :: k in m <==> k in keys
    requires forall k :: k in m' <==> k in order
    requires order == Unmatched(keys, pattern)
    requires forall k :: k in m' ==> k in m && m'[k] == m[k]
    ensures m' == RemoveMatching(m, pattern)
  {
    UnmatchedMembers(keys, pattern);
    assert m'.Keys == RemoveMatching(m, pattern).Keys;
  }

  /** Keys that all avoid `pattern` are all kept. */
  lemma {:induction false} UnmatchedNone(s: seq<string>, pattern: string)
    requires forall i :: 0 <= i < |s| ==> !IsSubstring(pattern, s[i])
    ensures Unmatched(s, pattern) == s
  {
    if s != [] {
      var init, last := s[..|s| - 1], s[|s| - 1];
      assert forall i :: 0 <= i < |init| ==> init[i] == s[i];
      UnmatchedNone(init, pattern);
      assert s == init + [last];
    }
  }

  /** The key-list half of `RemoveMatchingAbsorbs`. */
  lemma UnmatchedAbsorbs(s: seq<string>, p: string, q: string)
    requires IsSubstring(p, q)
    ensures Unmatched(Unmatched(s, p), q) == Unmatched(s, p)
  {
    UnmatchedMembers(s, p);
    var u := Unmatched(s, p);
    forall i | 0 <= i < |u|
      ensures !IsSubstring(q, u[i])
    {
      assert u[i] in u;
      if IsSubstring(q, u[i]) {
        SubstringTransitive(p, q, u[i]);
      }
    }
    UnmatchedNone(u, q);
  }

  /** Every key contains the empty pattern, so none is kept. */
  lemma {:induction false} UnmatchedEmptyPattern(s: seq<string>)
    ensures Unmatched(s, "") == []
  {
    if s != [] {
      UnmatchedEmptyPattern(s[..|s| - 1]);
      EmptyIsSubstring(s[|s| - 1]);
    }
  }

  /** Deleting keys from a distinct list leaves it distinct. */
  lemma UnmatchedDistinct(s: seq<string>, pattern: string)
    requires Distinct(s)
    ensures Distinct(Unmatched(s, pattern))
  {
    SweptKeysShape(s, |s|, pattern);
    assert s[..|s|] == s;
    assert Unmatched(s, pattern) + s[|s|..] == Unmatched(s, pattern);
  }

  // ----- the cache as a value -------------------------------------------------------

  /** What a `CacheManager` holds: the entries and the order in which their keys were added. */
  datatype Store = Store(cache: map<string, Entry>, order: seq<string>)

  /** Every entry's key is listed exactly once, and every listed key has an entry. */
  ghost predicate Consistent(st: Store) {
    Distinct(st.order) && forall k :: k in st.cache <==> k in st.order
  }

  /** What `get(key)` at `now` returns: the payload of a live entry, otherwise nothing. */
  function Lookup(m: map<string, Entry>, key: string, now: int): Option<Json> {
    if key in m && now <= m[key].expiry then Some(m[key].data) else None
  }

  /**
   * The expiry rule of `get`: a missing key reads as nothing; an entry reads as its
   * payload up to and including its expiry instant, and as nothing once `now` is past it.
   */
  lemma LookupCases(m: map<string, Entry>, key: string, now: int)
    ensures key !in m ==> Lookup(m, key, now) == None
    ensures key in m && now <= m[key].expiry ==> Lookup(m, key, now) == Some(m[key].data)
    ensures Expired(m, key, now) ==> Lookup(m, key, now) == None
  {
  }

  /** The store after `set(key, data, duration)` at `now`. */
  ghost function AfterSet(st: Store, key: string, data: Json, duration: int, now: int): Store {
    Store(st.cache[key := Entry(data, now, now + duration)],
          if key in st.cache then st.order else st.order + [key])
  }

  /** The store after `invalidate(key)`. */
  ghost function AfterInvalidate(st: Store, key: string): Store {
    Store(st.cache - {key}, Without(st.order, key))
  }

  /** The store after `get(key)` at `now`: only an expired entry for `key` is dropped. */
  ghost function AfterGet(st: Store, key: string, now: int): Store {
    if Expired(st.cache, key, now) then AfterInvalidate(st, key) else st
  }

  /** The store after `invalidatePattern(pattern)`. */
  ghost function AfterPattern(st: Store, pattern: string): Store {
    Store(RemoveMatching(st.cache, pattern), Unmatched(st.order, pattern))
  }

  lemma SetConsistent(st: Store, key: string, data: Json, duration: int, now: int)
    requires Consistent(st)
    ensures Consistent(AfterSet(st, key, data, duration, now))
  {
    if key !in st.cache {
      DistinctSnoc(st.order, key);
    }
  }

  lemma InvalidateConsistent(st: Store, key: string)
    requires Consistent(st)
    ensures Consistent(AfterInvalidate(st, key))
  {
    WithoutDistinct(st.order, key);
  }

  lemma PatternConsistent(st: Store, pattern: string)
    requires Consistent(st)
    ensures Consistent(AfterPattern(st, pattern))
  {
    UnmatchedDistinct(st.order, pattern);
    UnmatchedMembers(st.order, pattern);
  }

  /**
   * A stored payload reads back unchanged up to and including its expiry instant and
   * not after it; reads of every other key are unaffected.
   */
  lemma SetThenLookup(st: Store, key: string, data: Json, duration: int, now: int, t: int)
    ensures Lookup(AfterSet(st, key, data, duration, now).cache, key, t)
         == if t <= now + duration then Some(data) else None
    ensures forall k :: k != key ==>
              Lookup(AfterSet(st, key, data, duration, now).cache, k, t) == Lookup(st.cache, k, t)
  {
  }

  /** Invalidating a key twice is invalidating it once. */
  lemma InvalidateIdempotent(st: Store, key: string)
    ensures AfterInvalidate(AfterInvalidate(st, key), key) == AfterInvalidate(st, key)
  {
    WithoutIdempotent(st.order, key);
  }

  /** After invalidating `p`, invalidating a pattern that contains `p` changes nothing. */
  lemma PatternAbsorbs(st: Store, p: string, q: string)
    requires IsSubstring(p, q)
    ensures AfterPattern(AfterPattern(st, p), q) == AfterPattern(st, p)
  {
    RemoveMatchingAbsorbs(st.cache, p, q);
    UnmatchedAbsorbs(st.order, p, q);
  }

  /** Invalidating a pattern twice is invalidating it once. */
  lemma PatternIdempotent(st: Store, p: string)
    ensures AfterPattern(AfterPattern(st, p), p) == AfterPattern(st, p)
  {
    PrefixIsSubstring(p, "");
    assert p + "" == p;
    PatternAbsorbs(st, p, p);
  }

  /** `invalidatePattern("")` empties the cache. */
  lemma EmptyPatternClears(st: Store)
    ensures AfterPattern(st, "") == Store(map[], [])
  {
    RemoveMatchingEmptyPattern(st.cache);
    UnmatchedEmptyPattern(st.order);
  }

  // ----- the cache object -----------------------------------------------------------

  class CacheManager {
    /** The entries by key. */
    var cache: map<string, Entry>
    /** The keys in insertion order, the order in which a JavaScript `Map` lists them. */
    var order: seq<string>

    /** The entries and key order as a value. */
    ghost function State(): Store
      reads this
    {
      Store(cache, order)
    }

    ghost predicate Valid()
      reads this
    {
      Consistent(State())
    }

    constructor ()
      ensures Valid() && cache == map[] && order == []
    {
      cache := map[];
      order := [];
    }

    /**
     * `set(key, data, duration)` at time `now`: the entry for `key` is replaced by one
     * stored at `now` that expires at `now + duration`; a new key goes to the end of the
     * listing, an existing one keeps its place.
     */
    method Set(key: string, data: Json, duration: int, now: int)
      requires Valid()
      modifies this
      ensures Valid()
      ensures State() == AfterSet(old(State()), key, data, duration, now)
    {
      SetConsistent(State(), key, data, duration, now);
      if key !in cache {
        order := order + [key];
      }
      cache := cache[key := Entry(data, now, now + duration)];
    }

    /**
     * `get(key)` at time `now`: the stored payload while `now <= expiry` (the expiry
     * instant itself is still a hit); an expired entry is dropped and reads as a miss.
     */
    method Get(key: string, now: int) returns (r: Option<Json>)
      requires Valid()
      modifies this
      ensures Valid()
      ensures r == Lookup(old(cache), key, now)
      ensures State() == AfterGet(old(State()), key, now)
    {
      if key !in cache {
        return None;
      }
      var entry := cache[key];
      if now > entry.expiry {
        Invalidate(key);
        return None;
      }
      return Some(entry.data);
    }

    /** `invalidate(key)`: exactly the entry for `key` goes (if there is one). */
    method Invalidate(key: string)
      requires Valid()
      modifies this
      ensures Valid()
      ensures State() == AfterInvalidate(old(State()), key)
    {
      InvalidateConsistent(State(), key);
      cache := cache - {key};
      order := Without(order, key);
    }

    /**
     * `invalidatePattern(pattern)`: walks the keys in order and deletes each one that
     * contains `pattern` as a substring; every other entry stays as it was.
     */
    method InvalidatePattern(pattern: string)
      requires Valid()
      modifies this
      ensures Valid()
      ensures State() == AfterPattern(old(State()), pattern)
    {
      var keys := order;
      var i := 0;
      while i < |keys|
        invariant 0 <= i <= |keys|
        invariant keys == old(order)
        invariant cache == SweptEntries(old(cache), keys, i, pattern)
        invariant order == SweptKeys(keys, i, pattern)
      {
        var key := keys[i];
        if Includes(key, pattern) {
          cache := cache - {key};
          order := Without(order, key);
        }
        i := i + 1;
      }
      SweptKeysShape(keys, |keys|, pattern);
      SweptEntriesInStep(old(cache), keys, |keys|, pattern);
      assert keys[..|keys|] == keys;
      KeptEntries(old(cache), keys, cache, order, pattern);
    }

    /** `clear()`: every entry goes. */
    method Clear()
      requires Valid()
      modifies this
      ensures Valid()
      ensures cache == map[] && order == []
    {
      cache := map[];
      order := [];
    }

    /**
     * `getStats()`: the number of entries and their keys in insertion order, expired
     * entries that no read has evicted yet included.
     */
    method GetStats() returns (size: nat, keys: seq<string>)
      requires Valid()
      ensures size == |keys| == |cache|
      ensures keys == order && Distinct(keys)
      ensures forall k :: k in keys <==> k in cache
    {
      DistinctCard(order);
      assert cache.Keys == set x | x in order;
      size := |cache|;
      keys := order;
    }
  }

  /**
   * A client scenario: a status entry stored at 0 for 30 s is a hit at 29999 and a miss at
   * 30001, which also evicts it; a fresh entry stored at 30002 is a hit at 30003.
   */
  method StatusExpiryScenario() {
    var c := new CacheManager();
    var stale := JObj(map["trained" := JBool(false)]);
    var trained := JObj(map["trained" := JBool(true)]);
    c.Set("system_status", stale, StatusDuration, 0);
    var r := c.Get("system_status", 29999);
    assert r == Some(stale);
    r := c.Get("system_status", 30000);
    assert r == Some(stale);
    r := c.Get("system_status", 30001);
    assert r == None;
    var size, keys := c.GetStats();
    assert size == 0;
    c.Set("system_status", trained, StatusDuration, 30002);
    r := c.Get("system_status", 30003);
    assert r == Some(trained);
    c.Clear();
    size, keys := c.GetStats();
    assert size == 0 && keys == [];
  }

}
