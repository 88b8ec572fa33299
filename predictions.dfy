/**
 * The prediction form of components/dashboard/Predictions.tsx: the range check that
 * guards `onMakePrediction`, the month label, the revenue colour tiers and the
 * excess-minutes notice.
 *
 * The integer fields reach the form already parsed as integers; the temperature is
 * a decimal.
 */
module Predictions {
  import opened Wrappers

  datatype PredictionRequest = PredictionRequest(
    stationId: string,
    hour: int,
    isWeekend: bool,
    month: int,
    temperature: real,
    humidity: int,
    bikeType: int,
    duration: int,
    dayName: string)

  /** The fields `validateForm` checks. */
  datatype CheckedField = Hour | Month | Temperature | Humidity | Duration

  // The messages stored for a field out of range. The temperature message keeps the
  // two characters U+00AC U+221E that stand for the degree sign in the repository's file.
  const HourMessage: string := "Hour must be between 0-23"
  const MonthMessage: string := "Month must be between 1-12"
  const TemperatureMessage: string := "Temperature must be between -10\U{AC}\U{221E}C and 40\U{AC}\U{221E}C"
  const HumidityMessage: string := "Humidity must be between 0-100%"
  const DurationMessage: string := "Duration must be between 5-120 minutes"

  function ErrorMessage(f: CheckedField): string {
    match f
    case Hour => HourMessage
    case Month => MonthMessage
    case Temperature => TemperatureMessage
    case Humidity => HumidityMessage
    case Duration => DurationMessage
  }

  /** The accepted range of one field, bounds included. */
  predicate InRange(form: PredictionRequest, f: CheckedField) {
    match f
    case Hour => 0 <= form.hour <= 23
    case Month => 1 <= form.month <= 12
    case Temperature => -10.0 <= form.temperature <= 40.0
    case Humidity => 0 <= form.humidity <= 100
    case Duration => 5 <= form.duration <= 120
  }

  /** Every checked field lies in its inclusive range. */
  predicate FormValid(form: PredictionRequest) {
    && 0 <= form.hour <= 23
    && 1 <= form.month <= 12
    && -10.0 <= form.temperature <= 40.0
    && 0 <= form.humidity <= 100
    && 5 <= form.duration <= 120
  }

  /** The whole form is valid exactly when each checked field is, one by one. */
  lemma FormValidFieldwise(form: PredictionRequest)
    ensures FormValid(form) <==> forall f :: InRange(form, f)
  {
    if !FormValid(form) {
      if !InRange(form, Hour) {
      } else if !InRange(form, Month) {
      } else if !InRange(form, Temperature) {
      } else if !InRange(form, Humidity) {
      } else {
        assert !InRange(form, Duration);
      }
    }
  }

  /**
   * The error record (`validationErrors`): one optional message per field the form
   * shows an error for. `station_id` has a slot too.
   */
  datatype ErrorRecord = ErrorRecord(
    stationId: Option<string>,
    hour: Option<string>,
    month: Option<string>,
    temperature: Option<string>,
    humidity: Option<string>,
    duration: Option<string>)

  const NoErrors: ErrorRecord := ErrorRecord(None, None, None, None, None, None)

  /** The slot of a checked field. */
  function Slot(errors: ErrorRecord, f: CheckedField): Option<string> {
    match f
    case Hour => errors.hour
    case Month => errors.month
    case Temperature => errors.temperature
    case Humidity => errors.humidity
    case Duration => errors.duration
  }

  /** `Object.keys(errors).length`: the number of filled slots. */
  function KeyCount(errors: ErrorRecord): (n: nat)
    ensures n == 0 <==> errors == NoErrors
  {
    (if errors.stationId.Some? then 1 else 0) + (if errors.hour.Some? then 1 else 0)
    + (if errors.month.Some? then 1 else 0) + (if errors.temperature.Some? then 1 else 0)
    + (if errors.humidity.Some? then 1 else 0) + (if errors.duration.Some? then 1 else 0)
  }

  /** What the slot of `f` should hold: its message exactly when `f` is out of range. */
  function Expected(form: PredictionRequest, f: CheckedField): Option<string> {
    if InRange(form, f) then None else Some(ErrorMessage(f))
  }

  /**
   * The record `validateForm` must leave: each checked field's slot holds its message
   * exactly when that field is out of range, whatever the other fields hold, and the
   * `station_id` slot is never filled.
   */
  ghost predicate ErrorsFor(form: PredictionRequest, errors: ErrorRecord) {
    && errors.stationId == None
    && forall f :: Slot(errors, f) == Expected(form, f)
  }

  /** The record `ErrorsFor` describes, written out slot by slot. */
  function ExpectedErrors(form: PredictionRequest): ErrorRecord {
    ErrorRecord(None, Expected(form, Hour), Expected(form, Month), Expected(form, Temperature),
                Expected(form, Humidity), Expected(form, Duration))
  }

  lemma ExpectedErrorsFit(form: PredictionRequest)
    ensures ErrorsFor(form, ExpectedErrors(form))
  {
    forall f
      ensures Slot(ExpectedErrors(form), f) == Expected(form, f)
    {
      match f
      case Hour =>
      case Month =>
      case Temperature =>
      case Humidity =>
      case Duration =>
    }
  }

  /** The two forms hold the same value in field `f`. */
  predicate SameField(a: PredictionRequest, b: PredictionRequest, f: CheckedField) {
    match f
    case Hour => a.hour == b.hour
    case Month => a.month == b.month
    case Temperature => a.temperature == b.temperature
    case Humidity => a.humidity == b.humidity
    case Duration => a.duration == b.duration
  }

  /**
   * A field's slot depends on that field alone; in particular `station_id`,
   * `is_weekend`, `bike_type` and `day_name` never affect the record.
   */
  lemma SlotIndependent(a: PredictionRequest, b: PredictionRequest, f: CheckedField)
    requires SameField(a, b, f)
    ensures Slot(ExpectedErrors(a), f) == Slot(ExpectedErrors(b), f)
  {
    match f
    case Hour =>
    case Month =>
    case Temperature =>
    case Humidity =>
    case Duration =>
  }

  /** The record is empty exactly when the form is valid. */
  lemma NoErrorsIffValid(form: PredictionRequest)
    ensures KeyCount(ExpectedErrors(form)) == 0 <==> FormValid(form)
  {
  }

  /** The component's validation state (`validationErrors`). */
  class PredictionPanel {
    var validationErrors: ErrorRecord

    constructor ()
      ensures validationErrors == NoErrors
    {
      validationErrors := NoErrors;
    }

    /**
     * `validateForm()`: records an error exactly for each checked field out of range
     * and answers whether the record is empty.
     */
    method ValidateForm(form: PredictionRequest) returns (ok: bool)
      modifies this
      ensures validationErrors == ExpectedErrors(form)
      ensures ok <==> FormValid(form)
    {
      var errors := NoErrors;
      if form.hour < 0 || form.hour > 23 {
        errors := errors.(hour := Some(ErrorMessage(Hour)));
      }
      if form.month < 1 || form.month > 12 {
        errors := errors.(month := Some(ErrorMessage(Month)));
      }
      if form.temperature < -10.0 || form.temperature > 40.0 {
        errors := errors.(temperature := Some(ErrorMessage(Temperature)));
      }
      if form.humidity < 0 || form.humidity > 100 {
        errors := errors.(humidity := Some(ErrorMessage(Humidity)));
      }
      if form.duration < 5 || form.duration > 120 {
        errors := errors.(duration := Some(ErrorMessage(Duration)));
      }
      validationErrors := errors;
      NoErrorsIffValid(form);
      ok := KeyCount(errors) == 0;
    }

    /**
     * `handlePredictionClick()`: the prediction is requested (`onMakePrediction`) if and
     * only if the form passes validation.
     */
    method HandlePredictionClick(form: PredictionRequest) returns (predictionRequested: bool)
      modifies this
      ensures predictionRequested <==> FormValid(form)
      ensures validationErrors == ExpectedErrors(form)
    {
      predictionRequested := false;
      var valid := ValidateForm(form);
      if valid {
        predictionRequested := true;
      }
    }
  }

  const MonthNames: seq<string> := ["January", "February", "March", "April", "May", "June", "July",
                                    "August", "September", "October", "November", "December"]

  /** `getMonthName(month)`: the name of months 1 to 12, "Unknown" for anything else. */
  function GetMonthName(month: int): (name: string)
    ensures 1 <= month <= 12 ==> name == MonthNames[month - 1]
    ensures name == "Unknown" <==> !(1 <= month <= 12)
  {
    if 1 <= month <= 12 then
      assert MonthNames[month - 1][0] != 'U';
      MonthNames[month - 1]
    else "Unknown"
  }

  /**
   * A month that passes validation always gets a proper name, and different months
   * get different names.
   */
  lemma MonthNameOfValidForm(form: PredictionRequest, other: int)
    requires FormValid(form) && 1 <= other <= 12 && other != form.month
    ensures GetMonthName(form.month) != "Unknown"
    ensures GetMonthName(form.month) != GetMonthName(other)
  {
    var a, b := MonthNames[form.month - 1], MonthNames[other - 1];
    assert |a| != |b| || a[0] != b[0] || a[2] != b[2];
    assert a[0] != 'U';
  }

  /** The four colour classes of `getRevenueColor`, from the highest amounts down. */
  datatype RevenueTier = High | Medium | Low | Flat

  function TierOf(amount: real): RevenueTier {
    if amount > 5.0 then High
    else if amount > 2.0 then Medium
    else if amount > 0.0 then Low
    else Flat
  }

  /** A tier's standing: higher amounts never land in a lower tier. */
  function Rank(t: RevenueTier): nat {
    match t
    case High => 3
    case Medium => 2
    case Low => 1
    case Flat => 0
  }

  function TierClass(t: RevenueTier): string {
    match t
    case High => "text-emerald-600 font-semibold"
    case Medium => "text-blue-800 font-semibold"
    case Low => "text-slate-700 font-semibold"
    case Flat => "text-slate-600 font-medium"
  }

  /**
   * `getRevenueColor(amount)`: strict thresholds at 5, 2 and 0. An amount of exactly
   * 5 is not yet the top tier, and zero or a loss gets the plain class.
   */
  function GetRevenueColor(amount: real): (cls: string)
    ensures cls == "text-emerald-600 font-semibold" <==> amount > 5.0
    ensures cls == "text-blue-800 font-semibold" <==> 2.0 < amount <= 5.0
    ensures cls == "text-slate-700 font-semibold" <==> 0.0 < amount <= 2.0
    ensures cls == "text-slate-600 font-medium" <==> amount <= 0.0
  {
    TierClass(TierOf(amount))
  }

  /** The colour tier is monotone in the amount. */
  lemma RevenueTierMonotone(a: real, b: real)
    requires a <= b
    ensures Rank(TierOf(a)) <= Rank(TierOf(b))
  {
  }

  /** The excess-minutes notice: shown only past 30 minutes, with the minutes beyond 30. */
  function ExcessMinutes(duration: int): (excess: Option<int>)
    ensures excess.Some? <==> duration > 30
    ensures excess.Some? ==> excess.value > 0 && duration == 30 + excess.value
  {
    if duration > 30 then Some(duration - 30) else None
  }

  /** For a form that passes validation the notice shows between 1 and 90 minutes. */
  lemma ExcessOfValidForm(form: PredictionRequest)
    requires FormValid(form)
    ensures ExcessMinutes(form.duration).Some? ==> 1 <= ExcessMinutes(form.duration).value <= 90
  {
  }
}
