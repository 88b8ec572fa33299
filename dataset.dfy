/**
 * The dataset side of services/api.ts: the page cache key of `fetchDatasetRecords`,
 * the forced refresh that drops the whole `dataset_` family, the remembered state of
 * the last successful answer, `getCachedDatasetState` and `invalidateDatasetCache`.
 */
module Dataset {
  import opened Wrappers
  import opened Json
  import opened Text
  import opened Cache
  import opened Fetch

  /** The pattern that a forced refresh and `invalidateDatasetCache` invalidate. */
  const DatasetFamily: string := "dataset_"

  /** `dataset_${page}_${JSON.stringify(filters)}`, with the serialisation already applied. */
  function DatasetKey(page: int, serialized: string): string {
    DatasetFamily + IntToString(page) + "_" + serialized
  }

  /** The key is the prefix followed by the page's rendering, an underscore and the filters. */
  lemma DatasetKeySplit(page: int, serialized: string)
    ensures DatasetKey(page, serialized) == DatasetFamily + (IntToString(page) + "_" + serialized)
  {
  }

  /**
   * Two requests share a cache key exactly when they ask for the same page with the
   * same serialised filters.
   */
  lemma DatasetKeyInjective(p1: int, s1: string, p2: int, s2: string)
    ensures DatasetKey(p1, s1) == DatasetKey(p2, s2) <==> p1 == p2 && s1 == s2
  {
    var a, b := IntToString(p1) + "_" + s1, IntToString(p2) + "_" + s2;
    DatasetKeySplit(p1, s1);
    DatasetKeySplit(p2, s2);
    if DatasetKey(p1, s1) == DatasetKey(p2, s2) {
      assert a == DatasetKey(p1, s1)[8..];
      assert b == DatasetKey(p2, s2)[8..];
      SplitAtUnderscore(IntToString(p1), s1, IntToString(p2), s2);
      IntToStringInjective(p1, p2);
    }
  }

  /** Every page key contains `dataset_`, so a forced refresh drops every cached page. */
  lemma DatasetKeyMatchesFamily(page: int, serialized: string)
    ensures IsSubstring(DatasetFamily, DatasetKey(page, serialized))
  {
    DatasetKeySplit(page, serialized);
    PrefixIsSubstring(DatasetFamily, IntToString(page) + "_" + serialized);
  }

  const SummaryKey: string := DatasetFamily + "summary"
  const LastFiltersKey: string := DatasetFamily + "last_filters"
  const LastPageKey: string := DatasetFamily + "last_page"
  const TotalRecordsKey: string := DatasetFamily + "total_records"
  const TotalPagesKey: string := DatasetFamily + "total_pages"

  /** The keys under which `fetchDatasetRecords` remembers the last successful answer. */
  predicate IsDatasetAuxKey(k: string) {
    k == SummaryKey || k == LastFiltersKey || k == LastPageKey
    || k == TotalRecordsKey || k == TotalPagesKey
  }

  /**
   * No page key is one of the remembered-state keys: after `dataset_` a page key
   * continues with a digit or `-`, each of those with a letter.
   */
  lemma DatasetKeyNotAux(page: int, serialized: string)
    ensures !IsDatasetAuxKey(DatasetKey(page, serialized))
  {
    var k := DatasetKey(page, serialized);
    DatasetKeySplit(page, serialized);
    assert k[8] == IntToString(page)[0];
    assert SummaryKey[8] == 's' && LastFiltersKey[8] == 'l' && LastPageKey[8] == 'l';
    assert TotalRecordsKey[8] == 't' && TotalPagesKey[8] == 't';
  }

  /** The page `fetchDatasetRecords` returns, its fields read from the answer. */
  datatype DatasetPage = DatasetPage(records: Json, totalPages: Json, totalRecords: Json,
                                     summary: Json, currentPage: Json)

  function PageOf(data: Json): DatasetPage {
    DatasetPage(Field(data, "records"), Field(data, "total_pages"), Field(data, "total_records"),
                Field(data, "summary"), Field(data, "current_page"))
  }

  /** The store after the remembered state of a successful answer `data` is cached at `later`. */
  ghost function RememberDataset(st: Store, data: Json, filters: Json, page: int, later: int): Store {
    var summary := Field(data, "summary");
    var st1 := if Truthy(summary) then AfterSet(st, SummaryKey, summary, DatasetSummaryDuration, later)
               else st;
    var st2 := AfterSet(st1, LastFiltersKey, filters, DatasetSummaryDuration, later);
    var st3 := AfterSet(st2, LastPageKey, JNum(page as real), DatasetSummaryDuration, later);
    var st4 := AfterSet(st3, TotalRecordsKey, Field(data, "total_records"), DatasetSummaryDuration, later);
    AfterSet(st4, TotalPagesKey, Field(data, "total_pages"), DatasetSummaryDuration, later)
  }

  /** One call of `fetchDatasetRecords`: what it returns, whether it sent the request, and the store after it. */
  datatype DatasetRun = DatasetRun(result: Option<DatasetPage>, networkCalled: bool, after: Store)

  /**
   * The answer `data` has been obtained (from the cache or the network) and `st` is the
   * store at that point. A successful answer is remembered and — unless its `records`
   * are missing, which makes the diagnostic line throw — returned; any other answer
   * is a failure.
   */
  ghost function Conclude(st: Store, data: Json, filters: Json, page: int, later: int,
                          networkCalled: bool): DatasetRun {
    if IsSuccess(data) then
      var after := RememberDataset(st, data, filters, page, later);
      DatasetRun(if Field(data, "records") == JNull then None else Some(PageOf(data)),
                 networkCalled, after)
    else
      DatasetRun(None, networkCalled, st)
  }

  /** `fetchDatasetRecords(page, filters, forceRefresh)` as a function of the store before it. */
  ghost function DatasetFetch(st: Store, page: int, filters: Json, serialized: string,
                              forceRefresh: bool, now: int, response: Outcome, later: int): DatasetRun {
    var key := DatasetKey(page, serialized);
    var st1 := if forceRefresh then AfterPattern(st, DatasetFamily) else st;
    var cached := Lookup(st1.cache, key, now);
    var st2 := AfterGet(st1, key, now);
    if cached.Some? && Truthy(cached.value) && !forceRefresh then
      Conclude(st2, cached.value, filters, page, later, false)
    else if Delivered(response) then
      Conclude(AfterSet(st2, key, response.body, DatasetDuration, later), response.body,
               filters, page, later, true)
    else
      DatasetRun(None, true, st2)
  }

  /** `cacheDatasetData(key, data)`: stored for the dataset-summary duration. */
  method CacheDatasetData(c: CacheManager, key: string, data: Json, now: int)
    requires c.Valid()
    modifies c
    ensures c.Valid()
    ensures c.State() == AfterSet(old(c.State()), key, data, DatasetSummaryDuration, now)
  {
    c.Set(key, data, DatasetSummaryDuration, now);
  }

  /**
   * `fetchDatasetRecords`. `None` is the error it throws: the request failed or was
   * not ok, the answer was not a success, or its `records` were missing.
   */
  method FetchDatasetRecords(c: CacheManager, page: int, filters: Json, stringify: Json -> string,
                             forceRefresh: bool, now: int, response: Outcome, later: int)
    returns (r: Option<DatasetPage>, networkCalled: bool)
    requires c.Valid()
    modifies c
    ensures c.Valid()
    ensures DatasetRun(r, networkCalled, c.State())
         == DatasetFetch(old(c.State()), page, filters, stringify(filters), forceRefresh, now, response, later)
  {
    var key := DatasetKey(page, stringify(filters));
    if forceRefresh {
      c.InvalidatePattern(DatasetFamily);
    }
    var cached := c.Get(key, now);
    var data;
    networkCalled := false;
    if cached.Some? && Truthy(cached.value) && !forceRefresh {
      data := cached.value;
    } else {
      networkCalled := true;
      if !Delivered(response) {
        return None, networkCalled;
      }
      data := response.body;
      c.Set(key, data, DatasetDuration, later);
    }
    if !IsSuccess(data) {
      return None, networkCalled;
    }
    var summary := Field(data, "summary");
    if Truthy(summary) {
      CacheDatasetData(c, SummaryKey, summary, later);
    }
    CacheDatasetData(c, LastFiltersKey, filters, later);
    CacheDatasetData(c, LastPageKey, JNum(page as real), later);
    CacheDatasetData(c, TotalRecordsKey, Field(data, "total_records"), later);
    CacheDatasetData(c, TotalPagesKey, Field(data, "total_pages"), later);
    if Field(data, "records") == JNull {
      return None, networkCalled;
    }
    r := Some(PageOf(data));
  }

  /** `m'` agrees with `m` on every key that does not contain `p`. */
  ghost predicate SameOutside(m: map<string, Entry>, m': map<string, Entry>, p: string) {
    forall k :: !IsSubstring(p, k) ==> (k in m <==> k in m') && (k in m ==> m[k] == m'[k])
  }

  lemma SameOutsideTrans(m1: map<string, Entry>, m2: map<string, Entry>, m3: map<string, Entry>,
                         p: string)
    requires SameOutside(m1, m2, p) && SameOutside(m2, m3, p)
    ensures SameOutside(m1, m3, p)
  {
  }

  lemma SetSameOutside(st: Store, key: string, data: Json, duration: int, now: int, p: string)
    requires IsSubstring(p, key)
    ensures SameOutside(st.cache, AfterSet(st, key, data, duration, now).cache, p)
  {
  }

  lemma GetSameOutside(st: Store, key: string, now: int, p: string)
    requires IsSubstring(p, key)
    ensures SameOutside(st.cache, AfterGet(st, key, now).cache, p)
  {
  }

  lemma PatternSameOutside(st: Store, p: string)
    ensures SameOutside(st.cache, AfterPattern(st, p).cache, p)
  {
  }

  /** Remembering a successful answer only writes keys of the `dataset_` family. */
  lemma RememberSameOutside(st: Store, data: Json, filters: Json, page: int, later: int)
    ensures SameOutside(st.cache, RememberDataset(st, data, filters, page, later).cache, DatasetFamily)
  {
    var p, d := DatasetFamily, DatasetSummaryDuration;
    var summary := Field(data, "summary");
    var st1 := if Truthy(summary) then AfterSet(st, SummaryKey, summary, d, later) else st;
    PrefixIsSubstring(p, "summary");
    if Truthy(summary) {
      SetSameOutside(st, SummaryKey, summary, d, later, p);
    }
    var st2 := AfterSet(st1, LastFiltersKey, filters, d, later);
    PrefixIsSubstring(p, "last_filters");
    SetSameOutside(st1, LastFiltersKey, filters, d, later, p);
    SameOutsideTrans(st.cache, st1.cache, st2.cache, p);
    var st3 := AfterSet(st2, LastPageKey, JNum(page as real), d, later);
    PrefixIsSubstring(p, "last_page");
    SetSameOutside(st2, LastPageKey, JNum(page as real), d, later, p);
    SameOutsideTrans(st.cache, st2.cache, st3.cache, p);
    var st4 := AfterSet(st3, TotalRecordsKey, Field(data, "total_records"), d, later);
    PrefixIsSubstring(p, "total_records");
    SetSameOutside(st3, TotalRecordsKey, Field(data, "total_records"), d, later, p);
    SameOutsideTrans(st.cache, st3.cache, st4.cache, p);
    PrefixIsSubstring(p, "total_pages");
    SetSameOutside(st4, TotalPagesKey, Field(data, "total_pages"), d, later, p);
    SameOutsideTrans(st.cache, st4.cache, RememberDataset(st, data, filters, page, later).cache, p);
  }

  lemma ConcludeSameOutside(st: Store, data: Json, filters: Json, page: int, later: int,
                            networkCalled: bool)
    ensures SameOutside(st.cache, Conclude(st, data, filters, page, later, networkCalled).after.cache,
                        DatasetFamily)
  {
    RememberSameOutside(st, data, filters, page, later);
  }

  /**
   * Whatever happens, `fetchDatasetRecords` leaves every entry whose key does not
   * contain `dataset_` as it was.
   */
  lemma DatasetFetchSameOutside(st: Store, page: int, filters: Json, serialized: string,
                                forceRefresh: bool, now: int, response: Outcome, later: int)
    ensures SameOutside(st.cache,
                        DatasetFetch(st, page, filters, serialized, forceRefresh, now, response, later).after.cache,
                        DatasetFamily)
  {
    var p, key := DatasetFamily, DatasetKey(page, serialized);
    var run := DatasetFetch(st, page, filters, serialized, forceRefresh, now, response, later);
    DatasetKeyMatchesFamily(page, serialized);
    var st1 := if forceRefresh then AfterPattern(st, p) else st;
    PatternSameOutside(st, p);
    var st2 := AfterGet(st1, key, now);
    GetSameOutside(st1, key, now, p);
    SameOutsideTrans(st.cache, st1.cache, st2.cache, p);
    var cached := Lookup(st1.cache, key, now);
    if cached.Some? && Truthy(cached.value) && !forceRefresh {
      assert run == Conclude(st2, cached.value, filters, page, later, false);
      ConcludeSameOutside(st2, cached.value, filters, page, later, false);
      SameOutsideTrans(st.cache, st2.cache, run.after.cache, p);
    } else if Delivered(response) {
      var st3 := AfterSet(st2, key, response.body, DatasetDuration, later);
      assert run == Conclude(st3, response.body, filters, page, later, true);
      SetSameOutside(st2, key, response.body, DatasetDuration, later, p);
      SameOutsideTrans(st.cache, st2.cache, st3.cache, p);
      ConcludeSameOutside(st3, response.body, filters, page, later, true);
      SameOutsideTrans(st.cache, st3.cache, run.after.cache, p);
    } else {
      assert run.after == st2;
    }
  }

  /** The remembered-state keys are five different keys. */
  lemma AuxKeysDistinct()
    ensures SummaryKey != LastFiltersKey && SummaryKey != LastPageKey
    ensures SummaryKey != TotalRecordsKey && SummaryKey != TotalPagesKey
    ensures LastFiltersKey != LastPageKey && LastFiltersKey != TotalRecordsKey
    ensures LastFiltersKey != TotalPagesKey && LastPageKey != TotalRecordsKey
    ensures LastPageKey != TotalPagesKey && TotalRecordsKey != TotalPagesKey
  {
    assert SummaryKey[8] == 's' && LastFiltersKey[8] == 'l' && LastPageKey[8] == 'l';
    assert TotalRecordsKey[8] == 't' && TotalPagesKey[8] == 't';
    assert LastFiltersKey[13] == 'f' && LastPageKey[13] == 'p';
    assert TotalRecordsKey[14] == 'r' && TotalPagesKey[14] == 'p';
  }

  /** Remembering an answer leaves every key other than the five remembered-state keys alone. */
  lemma RememberKeepsOthers(st: Store, data: Json, filters: Json, page: int, later: int, k: string)
    requires !IsDatasetAuxKey(k)
    ensures var after := RememberDataset(st, data, filters, page, later).cache;
            (k in after <==> k in st.cache) && (k in st.cache ==> after[k] == st.cache[k])
  {
  }

  /**
   * Until the remembered state expires, each of its keys reads back what the
   * successful answer put there.
   */
  lemma RememberReadsBack(st: Store, data: Json, filters: Json, page: int, later: int, t: int)
    requires later <= t <= later + DatasetSummaryDuration
    ensures var after := RememberDataset(st, data, filters, page, later).cache;
            && Lookup(after, LastFiltersKey, t) == Some(filters)
            && Lookup(after, LastPageKey, t) == Some(JNum(page as real))
            && Lookup(after, TotalRecordsKey, t) == Some(Field(data, "total_records"))
            && Lookup(after, TotalPagesKey, t) == Some(Field(data, "total_pages"))
            && (Truthy(Field(data, "summary")) ==> Lookup(after, SummaryKey, t) == Some(Field(data, "summary")))
  {
    AuxKeysDistinct();
  }

  /** Every entry of the `dataset_` family in `m` was stored at `t`. */
  ghost predicate FamilyStoredAt(m: map<string, Entry>, t: int) {
    forall k :: k in m && IsSubstring(DatasetFamily, k) ==> m[k].timestamp == t
  }

  lemma ConcludeStoredAt(st: Store, data: Json, filters: Json, page: int, later: int,
                         networkCalled: bool)
    requires FamilyStoredAt(st.cache, later)
    ensures FamilyStoredAt(Conclude(st, data, filters, page, later, networkCalled).after.cache, later)
  {
  }

  /**
   * After a forced refresh no entry of the `dataset_` family is older than the
   * refresh: each surviving one was stored by this call.
   */
  lemma ForcedRefreshLeavesNothingStale(st: Store, page: int, filters: Json, serialized: string,
                                        now: int, response: Outcome, later: int)
    ensures FamilyStoredAt(DatasetFetch(st, page, filters, serialized, true, now, response, later).after.cache,
                           later)
  {
    var key := DatasetKey(page, serialized);
    var run := DatasetFetch(st, page, filters, serialized, true, now, response, later);
    var st2 := AfterGet(AfterPattern(st, DatasetFamily), key, now);
    assert FamilyStoredAt(st2.cache, later);
    if Delivered(response) {
      var st3 := AfterSet(st2, key, response.body, DatasetDuration, later);
      assert run == Conclude(st3, response.body, filters, page, later, true);
      ConcludeStoredAt(st3, response.body, filters, page, later, true);
    }
  }

  /**
   * A delivered page is cached under its key for the dataset duration before its
   * `success` field is looked at, and stays there whatever the answer says.
   */
  lemma DeliveredPageIsCached(st: Store, page: int, filters: Json, serialized: string,
                              forceRefresh: bool, now: int, response: Outcome, later: int)
    requires Delivered(response)
    requires DatasetFetch(st, page, filters, serialized, forceRefresh, now, response, later).networkCalled
    ensures var key := DatasetKey(page, serialized);
            var after := DatasetFetch(st, page, filters, serialized, forceRefresh, now, response, later).after;
            key in after.cache && after.cache[key] == Entry(response.body, later, later + DatasetDuration)
  {
    var key := DatasetKey(page, serialized);
    var st1 := if forceRefresh then AfterPattern(st, DatasetFamily) else st;
    var st3 := AfterSet(AfterGet(st1, key, now), key, response.body, DatasetDuration, later);
    DatasetKeyNotAux(page, serialized);
    RememberKeepsOthers(st3, response.body, filters, page, later, key);
  }

  /**
   * A request that fails or is not ok fails the call and writes nothing: every entry
   * left was there before, unchanged.
   */
  lemma UndeliveredWritesNothing(st: Store, page: int, filters: Json, serialized: string,
                                 forceRefresh: bool, now: int, response: Outcome, later: int)
    requires !Delivered(response)
    requires DatasetFetch(st, page, filters, serialized, forceRefresh, now, response, later).networkCalled
    ensures var run := DatasetFetch(st, page, filters, serialized, forceRefresh, now, response, later);
            run.result == None
            && forall k :: k in run.after.cache ==> k in st.cache && run.after.cache[k] == st.cache[k]
  {
  }

  /**
   * A delivered answer that is not a success, but is truthy, is served again from the
   * cache: until the page entry expires, the next fetch of the same page without a
   * forced refresh makes no request and fails again.
   */
  lemma UnsuccessfulPageServedAgain(st: Store, page: int, filters: Json, serialized: string,
                                    forceRefresh: bool, now: int, response: Outcome, later: int,
                                    t: int, response2: Outcome, later2: int)
    requires Delivered(response) && !IsSuccess(response.body) && Truthy(response.body)
    requires DatasetFetch(st, page, filters, serialized, forceRefresh, now, response, later).networkCalled
    requires t <= later + DatasetDuration
    ensures var after := DatasetFetch(st, page, filters, serialized, forceRefresh, now, response, later).after;
            var next := DatasetFetch(after, page, filters, serialized, false, t, response2, later2);
            !next.networkCalled && next.result == None
  {
    DeliveredPageIsCached(st, page, filters, serialized, forceRefresh, now, response, later);
  }

  // ----- the remembered state -----------------------------------------------------

  /** The object `getCachedDatasetState` returns. */
  datatype DatasetState = DatasetState(summary: Json, lastFilters: Json, lastPage: Json,
                                       totalRecords: Json, totalPages: Json, hasCache: bool)

  /** `getCachedDatasetData(key)`'s result: the payload, or `null` on a miss. */
  function OrNull(o: Option<Json>): Json {
    if o.Some? then o.value else JNull
  }

  /** `x || fallback`. */
  function OrElse(x: Json, fallback: Json): Json {
    if Truthy(x) then x else fallback
  }

  /**
   * The object built from the five reads: the page defaults to 1 and the totals to 0
   * when falsy, and there is a cache to restore when a summary or the last filters
   * were found.
   */
  function DatasetStateOf(summary: Json, lastFilters: Json, lastPage: Json, totalRecords: Json,
                          totalPages: Json): (s: DatasetState)
    ensures s.summary == summary && s.lastFilters == lastFilters
    ensures Truthy(lastPage) ==> s.lastPage == lastPage
    ensures !Truthy(lastPage) ==> s.lastPage == JNum(1.0)
    ensures Truthy(totalRecords) ==> s.totalRecords == totalRecords
    ensures !Truthy(totalRecords) ==> s.totalRecords == JNum(0.0)
    ensures Truthy(totalPages) ==> s.totalPages == totalPages
    ensures !Truthy(totalPages) ==> s.totalPages == JNum(0.0)
    ensures s.hasCache <==> Truthy(summary) || Truthy(lastFilters)
  {
    DatasetState(summary, lastFilters, OrElse(lastPage, JNum(1.0)), OrElse(totalRecords, JNum(0.0)),
                 OrElse(totalPages, JNum(0.0)), Truthy(summary) || Truthy(lastFilters))
  }

  /** `getCachedDatasetState()` on the entries `m` at `now`. */
  function DatasetStateAt(m: map<string, Entry>, now: int): DatasetState {
    DatasetStateOf(OrNull(Lookup(m, SummaryKey, now)), OrNull(Lookup(m, LastFiltersKey, now)),
                   OrNull(Lookup(m, LastPageKey, now)), OrNull(Lookup(m, TotalRecordsKey, now)),
                   OrNull(Lookup(m, TotalPagesKey, now)))
  }

  /** Reading `key` does not change what another key reads. */
  lemma LookupAfterGet(st: Store, key: string, k: string, now: int)
    requires key != k
    ensures Lookup(AfterGet(st, key, now).cache, k, now) == Lookup(st.cache, k, now)
  {
  }

  /**
   * `getCachedDatasetState()`: five reads, each of which evicts its own key when
   * expired; the reads see the entries as they were, since the keys differ.
   */
  method GetCachedDatasetState(c: CacheManager, now: int) returns (s: DatasetState)
    requires c.Valid()
    modifies c
    ensures c.Valid()
    ensures s == DatasetStateAt(old(c.cache), now)
    ensures c.State()
         == AfterGet(AfterGet(AfterGet(AfterGet(AfterGet(old(c.State()), SummaryKey, now),
                                                LastFiltersKey, now), LastPageKey, now),
                              TotalRecordsKey, now), TotalPagesKey, now)
  {
    AuxKeysDistinct();
    ghost var st0 := c.State();
    var summary := c.Get(SummaryKey, now);
    ghost var st1 := c.State();
    var lastFilters := c.Get(LastFiltersKey, now);
    ghost var st2 := c.State();
    var lastPage := c.Get(LastPageKey, now);
    ghost var st3 := c.State();
    var totalRecords := c.Get(TotalRecordsKey, now);
    ghost var st4 := c.State();
    var totalPages := c.Get(TotalPagesKey, now);
    assert lastFilters == Lookup(st0.cache, LastFiltersKey, now) by {
      LookupAfterGet(st0, SummaryKey, LastFiltersKey, now);
    }
    assert lastPage == Lookup(st0.cache, LastPageKey, now) by {
      LookupAfterGet(st1, LastFiltersKey, LastPageKey, now);
      LookupAfterGet(st0, SummaryKey, LastPageKey, now);
    }
    assert totalRecords == Lookup(st0.cache, TotalRecordsKey, now) by {
      LookupAfterGet(st2, LastPageKey, TotalRecordsKey, now);
      LookupAfterGet(st1, LastFiltersKey, TotalRecordsKey, now);
      LookupAfterGet(st0, SummaryKey, TotalRecordsKey, now);
    }
    assert totalPages == Lookup(st0.cache, TotalPagesKey, now) by {
      LookupAfterGet(st3, TotalRecordsKey, TotalPagesKey, now);
      LookupAfterGet(st2, LastPageKey, TotalPagesKey, now);
      LookupAfterGet(st1, LastFiltersKey, TotalPagesKey, now);
      LookupAfterGet(st0, SummaryKey, TotalPagesKey, now);
    }
    s := DatasetStateOf(OrNull(summary), OrNull(lastFilters), OrNull(lastPage), OrNull(totalRecords),
                        OrNull(totalPages));
  }

  /** The state read back from a remembered answer until it expires. */
  lemma RestoreRemembered(st: Store, data: Json, filters: Json, page: int, later: int, t: int)
    requires later <= t <= later + DatasetSummaryDuration
    ensures var s := DatasetStateAt(RememberDataset(st, data, filters, page, later).cache, t);
            && s.lastFilters == filters
            && s.lastPage == (if page != 0 then JNum(page as real) else JNum(1.0))
            && (Truthy(filters) ==> s.hasCache)
  {
    RememberReadsBack(st, data, filters, page, later, t);
  }

  /**
   * A page returned by `fetchDatasetRecords` can be restored from the cache for the
   * next thirty minutes: the state read back names the same filters and page (a page
   * of 0 reads back as 1), and there is a cache to restore when the filters are truthy.
   */
  lemma RestoreAfterFetch(st: Store, page: int, filters: Json, serialized: string, forceRefresh: bool,
                          now: int, response: Outcome, later: int, t: int)
    requires DatasetFetch(st, page, filters, serialized, forceRefresh, now, response, later).result.Some?
    requires later <= t <= later + DatasetSummaryDuration
    ensures var s := DatasetStateAt(
                       DatasetFetch(st, page, filters, serialized, forceRefresh, now, response, later).after.cache, t);
            && s.lastFilters == filters
            && s.lastPage == (if page != 0 then JNum(page as real) else JNum(1.0))
            && (Truthy(filters) ==> s.hasCache)
  {
    var key := DatasetKey(page, serialized);
    var run := DatasetFetch(st, page, filters, serialized, forceRefresh, now, response, later);
    var st1 := if forceRefresh then AfterPattern(st, DatasetFamily) else st;
    var cached := Lookup(st1.cache, key, now);
    var st2 := AfterGet(st1, key, now);
    if cached.Some? && Truthy(cached.value) && !forceRefresh {
      assert run == Conclude(st2, cached.value, filters, page, later, false);
      assert run.after == RememberDataset(st2, cached.value, filters, page, later);
      RestoreRemembered(st2, cached.value, filters, page, later, t);
    } else {
      var st3 := AfterSet(st2, key, response.body, DatasetDuration, later);
      assert run == Conclude(st3, response.body, filters, page, later, true);
      assert run.after == RememberDataset(st3, response.body, filters, page, later);
      RestoreRemembered(st3, response.body, filters, page, later, t);
    }
  }

  /**
   * `invalidateDatasetCache()`: the second and third patterns contain the first, so the
   * three calls remove exactly what `invalidatePattern("dataset_")` alone removes.
   */
  method InvalidateDatasetCache(c: CacheManager)
    requires c.Valid()
    modifies c
    ensures c.Valid()
    ensures c.State() == AfterPattern(old(c.State()), DatasetFamily)
  {
    ghost var st := c.State();
    c.InvalidatePattern(DatasetFamily);
    c.InvalidatePattern(SummaryKey);
    c.InvalidatePattern(DatasetFamily + "last_");
    PrefixIsSubstring(DatasetFamily, "summary");
    PatternAbsorbs(st, DatasetFamily, SummaryKey);
    PrefixIsSubstring(DatasetFamily, "last_");
    PatternAbsorbs(st, DatasetFamily, DatasetFamily + "last_");
  }
}
