/**
 * The training triggers of services/api.ts and the training-result cache utilities.
 *
 * `trainSupervisedModel` and `trainUnsupervisedModel` post to the training endpoint
 * and parse the body without looking at the response's `ok` flag. Only an answer whose
 * `success` field is truthy counts: it drops the cached `system_status` (so the next
 * status read goes to the network) and stores a result object for an hour. Anything
 * else is caught and turned into `{ success: false, message }`, leaving the cache alone.
 */
module Training {
  import opened Wrappers
  import opened Json
  import opened Text
  import opened Cache
  import opened Fetch

  const StatusKey: string := "system_status"
  const TrainingFamily: string := "training_"
  const SupervisedResultKey: string := TrainingFamily + "supervised_result"
  const UnsupervisedResultKey: string := TrainingFamily + "unsupervised_result"

  /** Keys that other call sites store through `cacheTrainingResult`. */
  const AnomalyScatterKey: string := "analysis_anomaly_scatter_data"
  const CounterfactualKey: string := "analysis_counterfactual_data"
  const AnomalyAnalysisKey: string := "analysis_anomaly_data"

  datatype Model = Supervised | Unsupervised

  /** Where each trigger stores its result. */
  function ResultKey(model: Model): (k: string)
    ensures k == SupervisedResultKey || k == UnsupervisedResultKey
    ensures model.Supervised? <==> k == SupervisedResultKey
  {
    match model
    case Supervised => SupervisedResultKey
    case Unsupervised => UnsupervisedResultKey
  }

  /** The message thrown for an unsuccessful answer that carries no message of its own. */
  function DefaultFailure(model: Model): string {
    match model
    case Supervised => "Failed to start supervised training"
    case Unsupervised => "Failed to start training"
  }

  /** The trigger takes the success branch: a parsed body whose `success` is truthy. */
  predicate Accepted(o: Outcome) {
    o.Answered? && IsSuccess(o.body)
  }

  /**
   * The object a successful trigger returns and caches: `success: true` and the
   * answer's `results` and `message`, plus `model_type` and `metrics` for the
   * supervised model.
   */
  function TrainedResult(model: Model, body: Json): (r: Json)
    ensures r.JObj? && IsSuccess(r)
    ensures Field(r, "results") == Field(body, "results")
    ensures Field(r, "message") == Field(body, "message")
    ensures model.Supervised? ==>
              Field(r, "model_type") == Field(body, "model_type")
              && Field(r, "metrics") == Field(body, "metrics")
    ensures model.Unsupervised? ==> r.fields.Keys == {"success", "results", "message"}
  {
    var common := map["success" := JBool(true), "results" := Field(body, "results"),
                       "message" := Field(body, "message")];
    match model
    case Supervised =>
      JObj(common["model_type" := Field(body, "model_type")]["metrics" := Field(body, "metrics")])
    case Unsupervised => JObj(common)
  }

  /** `new Error(x).message`: a string is kept, anything else goes through `toText`. */
  function ErrorText(x: Json, toText: Json -> string): string {
    if x.JStr? then x.s else toText(x)
  }

  /**
   * The message of the error the trigger catches: the request's own error, the
   * `TypeError` raised by reading `success` of a `null` body (`nullAccess`), or the
   * error thrown for an unsuccessful answer — its `message` when truthy, else the
   * default.
   */
  function FailureMessage(model: Model, o: Outcome, nullAccess: string,
                          toText: Json -> string): (s: string)
    requires !Accepted(o)
    ensures o.Fail? ==> s == o.reason
    ensures o.Answered? && o.body.JNull? ==> s == nullAccess
    ensures o.Answered? && !o.body.JNull? && Truthy(Field(o.body, "message")) ==>
              if Field(o.body, "message").JStr? then s == Field(o.body, "message").s
              else s == toText(Field(o.body, "message"))
    ensures o.Answered? && !o.body.JNull? && !Truthy(Field(o.body, "message")) ==> s == DefaultFailure(model)
  {
    match o
    case Fail(reason) => reason
    case Answered(_, body) =>
      if body.JNull? then nullAccess
      else
        var message := Field(body, "message");
        if Truthy(message) then ErrorText(message, toText) else DefaultFailure(model)
  }

  /** `{ success: false, message }`. */
  function Rejected(message: string): (r: Json)
    ensures r.JObj? && !IsSuccess(r)
    ensures Field(r, "message") == JStr(message)
  {
    JObj(map["success" := JBool(false), "message" := JStr(message)])
  }

  /** `cacheTrainingResult(key, result)`: stored for the training-results duration. */
  method CacheTrainingResult(c: CacheManager, key: string, result: Json, now: int)
    requires c.Valid()
    modifies c
    ensures c.Valid()
    ensures c.State() == AfterSet(old(c.State()), key, result, TrainingResultsDuration, now)
  {
    c.Set(key, result, TrainingResultsDuration, now);
  }

  /** The store after a successful trigger. */
  ghost function AfterTraining(st: Store, model: Model, body: Json, now: int): Store {
    AfterSet(AfterInvalidate(st, StatusKey), ResultKey(model), TrainedResult(model, body),
             TrainingResultsDuration, now)
  }

  /**
   * `trainSupervisedModel()` / `trainUnsupervisedModel()`. The returned object reports
   * success exactly when the answer did; only then is `system_status` dropped and the
   * result cached, and a failure leaves the cache as it was.
   */
  method Train(c: CacheManager, model: Model, response: Outcome, nullAccess: string,
               toText: Json -> string, now: int) returns (r: Json)
    requires c.Valid()
    modifies c
    ensures c.Valid()
    ensures IsSuccess(r) <==> Accepted(response)
    ensures Accepted(response) ==>
              r == TrainedResult(model, response.body)
              && c.State() == AfterTraining(old(c.State()), model, response.body, now)
    ensures !Accepted(response) ==>
              r == Rejected(FailureMessage(model, response, nullAccess, toText))
              && c.State() == old(c.State())
  {
    if !Accepted(response) {
      return Rejected(FailureMessage(model, response, nullAccess, toText));
    }
    c.Invalidate(StatusKey);
    r := TrainedResult(model, response.body);
    CacheTrainingResult(c, ResultKey(model), r, now);
  }

  /**
   * After a successful trigger the status is no longer cached, so the next
   * `fetchStatus()` makes a request; the result reads back until its hour is up; and
   * every other key reads as before.
   */
  lemma TrainingOutcome(st: Store, model: Model, body: Json, now: int, t: int)
    ensures Lookup(AfterTraining(st, model, body, now).cache, StatusKey, t) == None
    ensures !Hit(AfterTraining(st, model, body, now).cache, StatusKey, t, false)
    ensures Lookup(AfterTraining(st, model, body, now).cache, ResultKey(model), t)
         == if t <= now + TrainingResultsDuration then Some(TrainedResult(model, body)) else None
    ensures forall k :: k != StatusKey && k != ResultKey(model) ==>
              Lookup(AfterTraining(st, model, body, now).cache, k, t) == Lookup(st.cache, k, t)
  {
    assert StatusKey != ResultKey(model) by {
      assert StatusKey[0] == 's' && ResultKey(model)[0] == 't';
    }
  }

  /** `invalidateTrainingCache()`. */
  method InvalidateTrainingCache(c: CacheManager)
    requires c.Valid()
    modifies c
    ensures c.Valid()
    ensures c.State() == AfterPattern(old(c.State()), TrainingFamily)
  {
    c.InvalidatePattern(TrainingFamily);
  }

  /** A key without the letter `g` cannot contain `training_`. */
  lemma NoTrainingMatch(k: string)
    requires 'g' !in k
    ensures !IsSubstring(TrainingFamily, k)
  {
    SubstringChars(TrainingFamily, k);
    assert TrainingFamily[7] == 'g';
  }

  /**
   * What `invalidateTrainingCache()` reaches: both training results go, while the
   * status entry and the analysis data other call sites cache through
   * `cacheTrainingResult` stay exactly as they were.
   */
  lemma TrainingInvalidationScope(st: Store)
    ensures SupervisedResultKey !in AfterPattern(st, TrainingFamily).cache
    ensures UnsupervisedResultKey !in AfterPattern(st, TrainingFamily).cache
    ensures forall k :: k in {StatusKey, AnomalyScatterKey, CounterfactualKey, AnomalyAnalysisKey}
                        && k in st.cache ==>
              k in AfterPattern(st, TrainingFamily).cache
              && AfterPattern(st, TrainingFamily).cache[k] == st.cache[k]
  {
    PrefixIsSubstring(TrainingFamily, "supervised_result");
    PrefixIsSubstring(TrainingFamily, "unsupervised_result");
    NoTrainingMatch(StatusKey);
    NoTrainingMatch(AnomalyScatterKey);
    NoTrainingMatch(CounterfactualKey);
    NoTrainingMatch(AnomalyAnalysisKey);
  }
}
