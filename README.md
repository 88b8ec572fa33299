# Citi Bike dashboard: client cache and chart logic, in Dafny

This project models the logic of a Next.js dashboard for a bike-share analytics backend.

Client cache and API layer (`services/api.ts`):

- the `CacheManager`, an in-memory map from cache key to an entry with an expiry time;
- the `CACHE_DURATION` table;
- `fetchWithCache`, the read-through fetch used by the status, KPI and chart calls;
- `fetchDatasetRecords`, including its forced refresh and the dataset state it remembers;
- the two training triggers and their cache effects;
- the training and dataset cache utilities, including `getCachedDatasetState` and `invalidateDatasetCache`.

Front-end logic:

- the validation and labelling of the prediction form (`components/dashboard/Predictions.tsx`);
- the statistics of the station-balance chart (`components/charts/StationBalanceChart.tsx`);
- the statistics of the anomalies-by-hour chart (`components/charts/AnomaliesByHourChart.tsx`).

## Files and modules

| file | module | what it holds |
|---|---|---|
| wrappers.dfy | `Wrappers` | `Option` |
| json.dfy | `Json` | parsed JSON values, JavaScript truthiness, field access |
| text.dfy | `Text` | `String.prototype.includes`, and the decimal rendering of numbers in template literals |
| cache.dfy | `Cache` | the durations, the value-level store and its operations, and the `CacheManager` class |
| fetch.dfy | `Fetch` | request outcomes, and `fetchWithCache` |
| dataset.dfy | `Dataset` | dataset keys, `fetchDatasetRecords`, the remembered state, and the dataset utilities |
| training.dfy | `Training` | the training triggers and the training-result utilities |
| predictions.dfy | `Predictions` | the form check, month names, revenue colours, and excess minutes |
| sequences.dfy | `Sequences` | `filter`, a summing `reduce`, and `Math.min`/`Math.max` over a list |
| station_balance.dfy | `StationBalance` | the station-balance chart's figures |
| anomalies_by_hour.dfy | `AnomaliesByHour` | the anomalies-by-hour chart's figures |

How the model is set up:

- **The cache is a class.**
  - `CacheManager` has two fields: the entries (`cache`) and the keys in insertion order (`order`), which is the order in which a JavaScript `Map` iterates.
  - Each method is specified against a value-level function of the old state. For example, `State() == AfterSet(old(State()), ...)` specifies `Set`.
  - The properties are then proved about those functions: expiry, read-back, idempotence, absorption of patterns, and what stays untouched.
- **`invalidatePattern` keeps its loop.**
  - The loop walks a snapshot of the key order and deletes matching keys one at a time.
  - Its invariants tie each step to a swept prefix.
- **Time and the network are parameters.**
  - `Date.now()` is an `int` parameter: `now` where the cache is read and `later` where the answer is stored.
  - A request is an `Outcome`: `Fail(reason)` when `fetch` or `response.json()` throws, or `Answered(ok, body)` for a parsed body.
  - `JSON.stringify` of the dataset filters is a function parameter.
- **Training is kept as written:** the triggers never look at `response.ok`. Only the body's `success` field decides the result (`Accepted`).
- **Error records use a datatype.** The form's `Record<string, string>` of errors becomes `ErrorRecord`, with one optional slot per key the form reads. The number of filled slots stands for `Object.keys(errors).length`.
- **Averages are real numbers.**
  - The anomaly average `total / length` is computed as a real number.
  - `AboveAverage` proves that "above the average" is the integer condition `anomalies * length > total`.

## Model

| member | source | states |
|---|---|---|
| Cache.StatusDuration | services/api.ts:18 | definition: 30 seconds in milliseconds |
| Cache.DashboardDuration | services/api.ts:19 | definition: 2 minutes in milliseconds |
| Cache.ChartsDuration | services/api.ts:20 | definition: 5 minutes in milliseconds |
| Cache.AnomaliesDuration | services/api.ts:21 | definition: 10 minutes in milliseconds |
| Cache.TrainingResultsDuration | services/api.ts:22 | definition: 1 hour in milliseconds |
| Cache.DatasetDuration | services/api.ts:23 | definition: 15 minutes in milliseconds |
| Cache.DatasetSummaryDuration | services/api.ts:24 | definition: 30 minutes in milliseconds |
| Cache.Expired | services/api.ts:45 | definition: the key has an entry and `now` is strictly past its expiry |
| Cache.Lookup | services/api.ts:40-51 | definition of what `get` returns: the payload of an entry while `now <= expiry`, otherwise nothing; its meaning is stated by `LookupCases` |
| Cache.AfterSet | services/api.ts:31-38 | definition of the store after `set`: the key's entry becomes the payload with expiry `now + duration`, and a new key goes to the end of the listing |
| Cache.AfterInvalidate | services/api.ts:53-55 | definition of the store after `invalidate`: the entry and its key removed |
| Cache.AfterGet | services/api.ts:40-51 | definition of the store after `get`: only an expired entry for the key is removed |
| Cache.RemoveMatching | services/api.ts:57-63 | definition: the entries whose key does not contain the pattern |
| Cache.AfterPattern | services/api.ts:57-63 | definition of the store after `invalidatePattern`: the matching entries and keys removed, the rest in order |
| Text.Includes | services/api.ts:59 | definition of `key.includes(pattern)` as a left-to-right scan; `IncludesIsSubstring` proves it is the substring relation |
| Text.IntToString | services/api.ts:233 | the `${page}` rendering is non-empty, starts with a digit or `-` and contains no `_`; `IntToStringInjective` proves distinct pages render differently |
| Json.Truthy | services/api.ts:90 | definition of JavaScript truthiness on parsed JSON: `null`, `false`, `0` and `""` are falsy |
| Json.Field | services/api.ts:270 | `data?.name`: the field of an object, and a falsy value for a missing field or a non-object |
| Json.IsSuccess | services/api.ts:270 | definition: `data?.success` taken as a condition |
| Fetch.Hit | services/api.ts:88-94 | definition: no forced refresh, and a live entry with a truthy payload |
| Fetch.Delivered | services/api.ts:98-103 | definition: the request answered with `ok` and a parsed body |
| Dataset.DatasetKey | services/api.ts:233 | definition of `dataset_${page}_${JSON.stringify(filters)}`, with the serialisation already applied; its properties are in `DatasetKeyInjective`, `DatasetKeyMatchesFamily` and `DatasetKeyNotAux` |
| Dataset.RememberDataset | services/api.ts:279-288 | definition of the store after the five remembered-state writes, the summary only when truthy |
| Dataset.Conclude | services/api.ts:270-298 | definition of the step after the answer is obtained: a successful answer is remembered and returned unless `records` is missing; any other answer fails |
| Dataset.DatasetFetch | services/api.ts:221-300 | definition of one `fetchDatasetRecords` call as a function of the store before it; `FetchDatasetRecords` is proved equal to it |
| Dataset.OrNull | services/api.ts:463-465 | definition: a cache miss reads as `null` |
| Dataset.OrElse | services/api.ts:484-486 | definition of `x || fallback` |
| Dataset.DatasetStateAt | services/api.ts:474-489 | definition of `getCachedDatasetState` on the entries before the call |
| Training.Accepted | services/api.ts:308-312 | definition: the body parsed and its `success` is truthy, whatever `ok` says |
| Training.DefaultFailure | services/api.ts:311 | definition: "Failed to start training" for the unsupervised model, "Failed to start supervised training" (line 340) for the supervised one |
| Training.AfterTraining | services/api.ts:314-323 | definition of the store after a successful trigger: `system_status` invalidated, then the result stored for an hour |
| Predictions.InRange | components/dashboard/Predictions.tsx:115-129 | definition of each checked field's inclusive range |
| Predictions.FormValid | components/dashboard/Predictions.tsx:115-129 | definition: every checked field in its inclusive range |
| Predictions.ErrorMessage | components/dashboard/Predictions.tsx:116-128 | definition: the message each field gets when out of range |
| Predictions.ExpectedErrors | components/dashboard/Predictions.tsx:113-129 | definition of the error record, slot by slot; its meaning is stated by `ExpectedErrorsFit` and `NoErrorsIffValid` |
| Predictions.TierOf | components/dashboard/Predictions.tsx:167-172 | definition of the four tiers by strict thresholds at 5, 2 and 0 |
| StationBalance.Deficit | components/charts/StationBalanceChart.tsx:76 | definition: the stations with `balance < 0`, in order |
| StationBalance.Excess | components/charts/StationBalanceChart.tsx:77 | definition: the stations with `balance > 0`, in order |
| StationBalance.Balanced | components/charts/StationBalanceChart.tsx:78-80 | definition: the stations with `balance === 0`, in order |
| StationBalance.ColorCode | components/charts/StationBalanceChart.tsx:87-89 | definition: the hex code of each bar colour |
| AnomaliesByHour.TotalAnomalies | components/charts/AnomaliesByHourChart.tsx:71 | definition: the anomalies of all rows summed from the left; `TotalVersusPeak` bounds it by the peak |
| AnomaliesByHour.Average | components/charts/AnomaliesByHourChart.tsx:76 | definition: the total over the number of rows, as a real number |
| AnomaliesByHour.BusyHours | components/charts/AnomaliesByHourChart.tsx:79 | definition: the rows strictly above the average, in order; `BusyHoursMembers` gives the integer condition |
| AnomaliesByHour.WithAnomalies | components/charts/AnomaliesByHourChart.tsx:263 | definition: the rows with a positive count, in order |
| Cache.CacheManager.constructor | services/api.ts:28-29 | a new manager holds no entries and lists no keys |
| Cache.CacheManager.Set | services/api.ts:31-38 | the entry for the key is replaced by one stamped `now` and expiring at `now + duration`; a new key goes last in the listing, an existing key keeps its place; everything else is unchanged |
| Cache.CacheManager.Get | services/api.ts:40-51 | returns the payload exactly while `now <= expiry`, so the expiry instant itself still hits; a missing key is a miss; an expired entry is deleted and also reads as a miss; nothing else changes |
| Cache.CacheManager.Invalidate | services/api.ts:53-55 | exactly the entry for the key goes, and its key leaves the listing |
| Cache.CacheManager.InvalidatePattern | services/api.ts:57-63 | the walk over the keys deletes exactly the keys containing the pattern; surviving entries keep their values and their order |
| Cache.CacheManager.Clear | services/api.ts:65-67 | no entries remain |
| Cache.CacheManager.GetStats | services/api.ts:69-74 | `size` is the number of entries; `keys` lists each stored key exactly once, in insertion order, with expired but not yet evicted keys included |
| Cache.LookupCases | services/api.ts:40-51 | the expiry rule: a missing key misses; an entry hits up to and including its expiry; it misses once `now` is past the expiry |
| Cache.SetThenLookup | services/api.ts:31-51 | a stored payload reads back until its expiry and not after it; reads of every other key are unaffected |
| Cache.SetConsistent | services/api.ts:31-38 | `set` keeps every key listed exactly once |
| Cache.InvalidateConsistent | services/api.ts:53-55 | `invalidate` keeps every key listed exactly once |
| Cache.PatternConsistent | services/api.ts:57-63 | `invalidatePattern` keeps every key listed exactly once |
| Cache.InvalidateIdempotent | services/api.ts:53-55 | invalidating a key twice has the same effect as invalidating it once |
| Cache.PatternIdempotent | services/api.ts:57-63 | invalidating a pattern twice has the same effect as invalidating it once |
| Cache.PatternAbsorbs | services/api.ts:57-63 | after pattern `p`, any pattern containing `p` removes nothing more |
| Cache.EmptyPatternClears | services/api.ts:57-63 | the empty pattern matches every key, so it empties the cache |
| Cache.RemoveMatchingAbsorbs | services/api.ts:57-63 | the entry-map half of `PatternAbsorbs` |
| Text.IncludesIsSubstring | services/api.ts:59 | `key.includes(pattern)` holds exactly when the pattern occurs somewhere in the key |
| Fetch.FetchWithCache | services/api.ts:81-113 | the request is skipped exactly when there is no forced refresh and a live, truthy payload is cached; a skipped request returns that payload and changes nothing; a forced refresh does not read the cache; a delivered body is stored for the given duration and returned whatever it says; a failed or non-ok request gives `null` and stores nothing |
| Fetch.StoredBodyIsHit | services/api.ts:88-106 | a stored body is answered from the cache exactly until its expiry passes, and only if it is truthy |
| Dataset.DatasetKeyInjective | services/api.ts:233 | two requests share a cache key exactly when they have the same page and the same serialised filters |
| Dataset.DatasetKeyMatchesFamily | services/api.ts:233-244 | every page key contains `dataset_`, so a forced refresh reaches every cached page |
| Dataset.DatasetKeyNotAux | services/api.ts:233-288 | no page key collides with one of the five remembered-state keys |
| Dataset.AuxKeysDistinct | services/api.ts:281-288 | the five remembered-state keys are pairwise different |
| Dataset.CacheDatasetData | services/api.ts:459-461 | stores the value for the dataset-summary duration |
| Dataset.FetchDatasetRecords | services/api.ts:221-300 | the result and the new cache are `DatasetFetch` of the old cache. That covers: the forced refresh dropping the whole family; a hit only without a refresh; storing the answer before its `success` is read; remembering a successful answer; and failing when the request fails, the answer is unsuccessful, or `records` is missing. A returned page is `PageOf` the answer: its `records`, `total_pages`, `total_records`, `summary` and `current_page` fields (lines 271-277) |
| Dataset.DatasetFetchSameOutside | services/api.ts:221-300 | whatever happens, every entry whose key does not contain `dataset_` is left as it was |
| Dataset.RememberKeepsOthers | services/api.ts:279-288 | remembering an answer touches only the five remembered-state keys |
| Dataset.RememberReadsBack | services/api.ts:279-288 | until they expire, the remembered keys read back the filters, the page and the totals, plus the summary when it is truthy |
| Dataset.ForcedRefreshLeavesNothingStale | services/api.ts:242-288 | after a forced refresh, every surviving `dataset_` entry was stored by this call |
| Dataset.DeliveredPageIsCached | services/api.ts:252-267 | a delivered answer is cached under its page key for the dataset duration, successful or not |
| Dataset.UnsuccessfulPageServedAgain | services/api.ts:246-294 | a delivered, truthy but unsuccessful answer is answered from the cache until its page entry expires: the next fetch of that page without a forced refresh makes no request and fails again |
| Dataset.UndeliveredWritesNothing | services/api.ts:252-262 | a failed or non-ok request fails the call and adds or changes no entry |
| Dataset.DatasetStateOf | services/api.ts:481-488 | the state object: the summary and the last filters as read; the page as read when truthy and 1 otherwise; each total as read when truthy and 0 otherwise; `hasCache` holds exactly when the summary or the last filters are truthy |
| Dataset.LookupAfterGet | services/api.ts:463-465 | reading one key never changes what another key reads |
| Dataset.GetCachedDatasetState | services/api.ts:474-489 | the result is the state object built from the five entries as they were before the call; each read evicts only its own expired key |
| Dataset.RestoreRemembered | services/api.ts:279-288 | the state read back from a remembered answer names its filters and its page, and reports a cache when the filters are truthy |
| Dataset.RestoreAfterFetch | services/api.ts:221-300 | for thirty minutes after a page is returned, the cached state restores the same filters and the same page, with 0 read back as 1 |
| Dataset.InvalidateDatasetCache | services/api.ts:467-471 | the three pattern calls remove exactly what `invalidatePattern("dataset_")` removes alone |
| Training.ResultKey | services/api.ts:323 | each trigger stores under its own result key |
| Training.TrainedResult | services/api.ts:318-322 | a successful result is an object with `success: true` that copies `results` and `message`; the unsupervised result has exactly those keys, and the supervised one also copies `model_type` and `metrics` |
| Training.FailureMessage | services/api.ts:304-312 | the caught message, one case each: the request's own error; the `TypeError` of reading `success` from a `null` body; a truthy string `message` itself; any other truthy `message` converted to text; the default when `message` is falsy or missing, for any non-null body |
| Training.Rejected | services/api.ts:328 | `{ success: false, message }` is unsuccessful and carries the message |
| Training.CacheTrainingResult | services/api.ts:446-448 | stores the value for the training-results duration |
| Training.Train | services/api.ts:303-361 | the returned object reports success exactly when the answer's `success` is truthy, whatever `ok` says; only then is `system_status` dropped and the result cached; a failure changes nothing in the cache |
| Training.TrainingOutcome | services/api.ts:314-323 | after a successful trigger the next status read makes a request; the result reads back for an hour; every other key reads as before |
| Training.InvalidateTrainingCache | services/api.ts:454-456 | removes exactly the keys containing `training_` |
| Training.NoTrainingMatch | services/api.ts:455 | a key without the letter `g` is never reached by `invalidatePattern("training_")` |
| Training.TrainingInvalidationScope | services/api.ts:454-456 | both training results are removed; the status entry and the `analysis_*` data cached through `cacheTrainingResult` survive unchanged |
| Predictions.FormValidFieldwise | components/dashboard/Predictions.tsx:115-129 | the form is valid exactly when each checked field lies in its inclusive range |
| Predictions.KeyCount | components/dashboard/Predictions.tsx:132 | the number of error keys is 0 exactly when the record is empty |
| Predictions.ExpectedErrorsFit | components/dashboard/Predictions.tsx:113-129 | the record holds a field's message exactly when that field is out of range, and never a `station_id` error |
| Predictions.SlotIndependent | components/dashboard/Predictions.tsx:115-129 | a field's error depends on that field alone |
| Predictions.NoErrorsIffValid | components/dashboard/Predictions.tsx:113-132 | the record is empty exactly when the form is valid |
| Predictions.PredictionPanel.constructor | components/dashboard/Predictions.tsx:94-96 | the validation errors start empty |
| Predictions.PredictionPanel.ValidateForm | components/dashboard/Predictions.tsx:112-133 | stores the error record of the form and answers whether the form is valid |
| Predictions.PredictionPanel.HandlePredictionClick | components/dashboard/Predictions.tsx:135-139 | the prediction is requested if and only if the form validates |
| Predictions.GetMonthName | components/dashboard/Predictions.tsx:141-157 | months 1 to 12 get their names, and "Unknown" is shown exactly for a number outside 1 to 12 |
| Predictions.MonthNameOfValidForm | components/dashboard/Predictions.tsx:118-157 | a month that validates never shows "Unknown", and different months show different names |
| Predictions.GetRevenueColor | components/dashboard/Predictions.tsx:167-172 | four classes with strict thresholds at 5, 2 and 0: an amount of exactly 5 is not top tier, and zero or a loss gets the plain class |
| Predictions.RevenueTierMonotone | components/dashboard/Predictions.tsx:167-172 | a larger amount never gets a lower tier |
| Predictions.ExcessMinutes | components/dashboard/Predictions.tsx:520-523 | the notice appears exactly past 30 minutes and shows the minutes beyond 30 |
| Predictions.ExcessOfValidForm | components/dashboard/Predictions.tsx:739-745 | for a form that validates, the notice shows between 1 and 90 minutes |
| StationBalance.CountsPartition | components/charts/StationBalanceChart.tsx:75-80 | the deficit, excess and balanced counts add up to the number of stations |
| StationBalance.Stats | components/charts/StationBalanceChart.tsx:56-83 | no statistics without rows; otherwise each count is the size of its own group (`balance < 0`, `> 0`, `== 0`) and the three add up to the number of stations; `maxDeficit`/`maxExcess` are balances that occur, with every balance between them |
| StationBalance.BarOf | components/charts/StationBalanceChart.tsx:86-90 | each balance gets exactly one bar colour, chosen by its sign |
| StationBalance.GetBarColor | components/charts/StationBalanceChart.tsx:86-90 | green exactly for an excess, red exactly for a deficit, gray exactly for zero |
| StationBalance.ColorsMatchGroups | components/charts/StationBalanceChart.tsx:76-90 | a bar is red, green or gray exactly when its station is counted as a deficit, an excess or balanced |
| StationBalance.BalanceTooltip | components/charts/StationBalanceChart.tsx:28-31 | shows the magnitude in bikes, labelled "Excess" only for a positive value, so zero reads as "Deficit" |
| StationBalance.TooltipSymmetric | components/charts/StationBalanceChart.tsx:28-31 | opposite balances show the same number of bikes; their labels differ exactly when the balance is not zero |
| Sequences.MinOf | components/charts/StationBalanceChart.tsx:82 | `Math.min(...xs)` is an element of the list and no larger than any element |
| Sequences.MaxOf | components/charts/StationBalanceChart.tsx:83 | `Math.max(...xs)` is an element of the list and no smaller than any element |
| AnomaliesByHour.PeakIn | components/charts/AnomaliesByHourChart.tsx:72-75 | each step of the `peakHour` reduce holds a largest count so far, and no earlier row reaches that count |
| AnomaliesByHour.PeakIndex | components/charts/AnomaliesByHourChart.tsx:72-75 | `peakHour` is the earliest row with the largest count |
| AnomaliesByHour.TotalVersusPeak | components/charts/AnomaliesByHourChart.tsx:71-75 | the total is at most the peak times the number of rows, with equality exactly when all counts are equal |
| AnomaliesByHour.AboveAverage | components/charts/AnomaliesByHourChart.tsx:76 | being above `total / length` is the same as `anomalies * length > total` |
| AnomaliesByHour.BusyHoursMembers | components/charts/AnomaliesByHourChart.tsx:76-79 | a row is a busy hour exactly when `anomalies * length > total` |
| AnomaliesByHour.EqualCountsNoBusy | components/charts/AnomaliesByHourChart.tsx:76-79 | when all counts are equal, there are no busy hours |
| AnomaliesByHour.PeakIsBusy | components/charts/AnomaliesByHourChart.tsx:72-79 | when the counts differ, the peak hour is a busy hour |
| AnomaliesByHour.BusyRange | components/charts/AnomaliesByHourChart.tsx:228-232 | a period is shown exactly when there are busy hours; its start is the earliest busy hour, its end the latest, and start <= end |
| AnomaliesByHour.BusyRangeCoversPeak | components/charts/AnomaliesByHourChart.tsx:72-79 | when the counts differ, the period shown covers the peak hour |
| AnomaliesByHour.HoursWithAnomaliesBound | components/charts/AnomaliesByHourChart.tsx:262-265 | the hours with anomalies are at most all hours, and with the hours without anomalies they account for every row |
| AnomaliesByHour.CriticalHour | components/charts/AnomaliesByHourChart.tsx:235-248 | the "Most Critical Hour" notice shows the peak hour, and appears exactly when some hour has an anomaly |
| AnomaliesByHour.CriticalHourIffDetected | components/charts/AnomaliesByHourChart.tsx:235-265 | the notice appears exactly when the detection rate is above zero |
| AnomaliesByHour.Stats | components/charts/AnomaliesByHourChart.tsx:45-79 | no statistics without rows; otherwise the total is `TotalAnomalies`, the peak is the row at `PeakIndex` (the earliest largest count), and the busy hours are `BusyHours` (rows of the data, no more of them than rows) |

## Left out

- The network and the clock:
  - `fetch`, `response.json()` and `Date.now()` are parameters;
  - one request outcome and one store time (`later`) stand for each awaited call;
  - concurrent calls interleaving on the shared cache are not modelled.
- Logging: `console.log` and `console.error` have no effect on the state.
- The other `fetchWithCache` call sites (`fetchStatus`, the KPI and chart fetchers) are not modelled one by one. Each is `FetchWithCache` with its own key and duration, followed by field defaults on the returned data. This also covers `Promise.all` in the dashboard loaders.
- The `analysis_*` writes are not modelled. On success, `fetchAnomalyData` (services/api.ts:203-212), `fetchCounterfactualAnalysis` (services/api.ts:374-377) and `fetchAnomalyAnalysis` (services/api.ts:392-395) each store a second entry for an hour through `cacheTrainingResult`. The model has `CacheTrainingResult` and proves those keys survive `invalidateTrainingCache`, but not these three call sites.
- Dataset filters and serialisation:
  - filters are opaque JSON;
  - `JSON.stringify` is a function parameter, so its format is not modelled;
  - the request body is not modelled, because it only goes to the network.
- `undefined` and `null`: both are represented by `JNull`. The dataset `records` check therefore treats a missing and a `null` `records` alike. Both make the diagnostic line at services/api.ts:290 throw, and so fail the call.
- Training.FailureMessage:
  - it does not model the fallback texts "Failed to start … model training" at services/api.ts:327 and 358, because every caught value there is an `Error`;
  - the message of a non-string `Error` argument is a function parameter (`toText`);
  - the `TypeError` message for a `null` body is a parameter (`nullAccess`).
- `makePrediction` and the other fetchers that skip the cache are not modelled: they only forward the network answer.
- The one-line utilities `invalidateCache`, `invalidateCachePattern`, `clearAllCache`, `getCacheStats`, `getCachedTrainingResult` and `getCachedDatasetData` have no members of their own. Each only calls one `CacheManager` method on the shared instance. The model passes that instance explicitly and calls the method directly.
- Predictions.PredictionPanel.ValidateForm: does not model a cleared numeric field. `parseInt("")` at app/page.tsx:284 gives `NaN`; every comparison at components/dashboard/Predictions.tsx:115-127 is then false, so `validateForm` accepts the form and `onMakePrediction` runs. The model's fields are integers and reals, which have no `NaN`, so it promises validity only for numeric inputs.
- Floating point:
  - not modelled: `NaN`, `toFixed`, `Intl.NumberFormat` and `toLocaleString`;
  - the detection-rate percentage (components/charts/AnomaliesByHourChart.tsx:262-265) is modelled through its numerator only;
  - temperatures are real numbers, and the integer form fields arrive parsed as integers.
- Tooltips:
  - the departures and arrivals branches of the station-balance tooltip are not modelled, because they use `toLocaleString`;
  - the anomaly tooltip is not modelled, because it only formats.
- Rendering: JSX, styling, the loading skeletons and the scrolling effect are not modelled.
- The `CacheManager` iteration detail: a JavaScript `Map` tolerates deletion while its keys are being iterated. The model walks a snapshot of the key order. Because the walk deletes only keys it has already visited, it deletes the same keys.

## Notes on the source

- **Training and the status cache.** A successful training trigger drops only `system_status` (services/api.ts:315, 344). `dashboard_kpis` and the `chart_` entries stay cached until they expire. In `TrainingOutcome`, every other key reads as before.
- **Training invalidation.** `invalidateTrainingCache` deletes only keys containing `training_`. The analysis data that other call sites store through `cacheTrainingResult` survive it: `analysis_anomaly_scatter_data`, `analysis_counterfactual_data` and `analysis_anomaly_data`. The model follows the code (`TrainingInvalidationScope`).
- **Temperature message.** The stored temperature message keeps the two characters U+00AC U+221E. They are how the degree sign appears in the repository's file.
- **Dataset answers.** `fetchDatasetRecords` caches a delivered page before looking at its `success` field. So an unsuccessful answer is cached for fifteen minutes, and because it is truthy it is served again from the cache: the next fetch of that page makes no request and fails again (`DeliveredPageIsCached`, `UnsuccessfulPageServedAgain`).
- **Training answers.** The training triggers ignore `response.ok`: an error status with a body whose `success` is truthy is treated as a success.
