/**
 * The cleaning form's two buttons: `calcular_limpeza` shows the hours and the value
 * without saving, and `adicionar_limpeza` checks the required fields and inserts one
 * `limpezas` row whose value is hours times the hourly rate. Python's `float()` of the
 * rate text is the parameter `parseFloat` (None where it raises ValueError).
 */
module CleaningEntry {
  import opened Wrappers
  import opened Decimal
  import Ledger
  import Clock
  import ComboOption

  /**
   * The form when a button is pressed. The date comes from a date picker whose
   * `get_date()` is a date object, which is always truthy, so it can never be missing.
   */
  datatype Form = Form(propertyOption: string, date: Ledger.Date, start: string, end: string, rate: string, notes: string)

  /** The `limpezas` row that is inserted. `property` is the id text read from the option. */
  datatype Record = Record(property: string, date: Ledger.Date, start: string, end: string,
                           hours: real, rate: real, value: real, notes: string)

  /** Inserted, or one of the two error dialogs, after which nothing is written. */
  datatype Outcome = Recorded(record: Record) | MissingFields | RateNotNumeric

  /** What `calcular_limpeza` shows. */
  datatype Estimate = Estimate(hours: real, value: real)

  /** `calcular_horas(start, end)` in hours. */
  function Hours(start: string, end: string): (h: real)
    ensures 0.0 <= h <= 23.98
  {
    Clock.HoursBetween(start, end) as real / 100.0
  }

  /**
   * The value of a cleaning: hours times the hourly rate. It is nothing exactly when no
   * time was worked or the rate is nothing, and never negative for a non-negative rate.
   */
  function Charge(hours: real, rate: real): (v: real)
    ensures v == 0.0 <==> hours == 0.0 || rate == 0.0
    ensures hours >= 0.0 && rate >= 0.0 ==> v >= 0.0
  {
    hours * rate
  }

  /** `calcular_limpeza`: no required-field check; only a rate that is not a number is an error. */
  function Preview(start: string, end: string, rate: string, parseFloat: string -> Option<real>): (e: Option<Estimate>)
    ensures e.None? <==> parseFloat(rate).None?
    ensures e.Some? ==> e.value.hours == Hours(start, end) && e.value.value == Charge(e.value.hours, parseFloat(rate).value)
  {
    match parseFloat(rate)
    case None => None
    case Some(r) => Some(Estimate(Hours(start, end), Charge(Hours(start, end), r)))
  }

  /** `adicionar_limpeza`. */
  function Submit(form: Form, parseFloat: string -> Option<real>): (o: Outcome)
    ensures o.MissingFields? <==>
      ComboOption.Decode(form.propertyOption) == [] || form.start == [] || form.end == [] || form.rate == []
    ensures o.RateNotNumeric? <==> !o.MissingFields? && parseFloat(form.rate).None?
    ensures o.Recorded? ==> o.record.value == Charge(o.record.hours, o.record.rate)
    ensures o.Recorded? ==> o.record.hours == Hours(form.start, form.end) && o.record.rate == parseFloat(form.rate).value
    ensures o.Recorded? ==> o.record.property == ComboOption.Decode(form.propertyOption)
    ensures o.Recorded? ==> o.record.start == form.start && o.record.end == form.end
    ensures o.Recorded? ==> o.record.date == form.date && o.record.notes == form.notes
  {
    var property := ComboOption.Decode(form.propertyOption);
    if property != [] && form.start != [] && form.end != [] && form.rate != [] then
      var hours := Hours(form.start, form.end);
      match parseFloat(form.rate)
      case None => RateNotNumeric
      case Some(r) => Recorded(Record(property, form.date, form.start, form.end, hours, r, Charge(hours, r), form.notes))
    else
      MissingFields
  }

  /**
   * From an option built as "id - name", valid times and a numeric rate, the row records
   * `str(id)` as the property, the rounded forward gap as the hours and the parsed rate;
   * its value is then their `Charge`, as `Submit` ensures.
   */
  lemma SubmitFromOption(form: Form, parseFloat: string -> Option<real>, id: int, name: string, a: nat, b: nat, r: real)
    requires form.propertyOption == ComboOption.Encode(id, name)
    requires Clock.ParseClock(form.start) == Some(a) && Clock.ParseClock(form.end) == Some(b)
    requires parseFloat(form.rate) == Some(r) && form.rate != []
    ensures Submit(form, parseFloat).Recorded?
    ensures Submit(form, parseFloat).record.property == IntToString(id)
    ensures Submit(form, parseFloat).record.hours ==
      Clock.RoundedHundredths(Clock.MinutesForward(a, b)) as real / 100.0
    ensures Submit(form, parseFloat).record.rate == r
  {
    ComboOption.DecodedIdentifiesOption(id, name);
  }

  /** A non-empty start or end that is not a valid time is not refused: the row is saved with 0 hours and value 0. */
  lemma InvalidTimeSavedAsZero(form: Form, parseFloat: string -> Option<real>)
    requires ComboOption.Decode(form.propertyOption) != [] && form.start != [] && form.end != [] && form.rate != []
    requires Clock.ParseClock(form.start).None? || Clock.ParseClock(form.end).None?
    requires parseFloat(form.rate).Some?
    ensures Submit(form, parseFloat).Recorded?
    ensures Submit(form, parseFloat).record.hours == 0.0 && Submit(form, parseFloat).record.value == 0.0
  {
    Clock.HoursOfInvalidTime(form.start, form.end);
  }

  /** When a row is saved, the preview of the same fields shows its hours and value. */
  lemma PreviewMatchesRecord(form: Form, parseFloat: string -> Option<real>, r: real)
    requires ComboOption.Decode(form.propertyOption) != [] && form.start != [] && form.end != [] && form.rate != []
    requires parseFloat(form.rate) == Some(r)
    ensures Submit(form, parseFloat).Recorded?
    ensures Preview(form.start, form.end, form.rate, parseFloat) ==
      Some(Estimate(Submit(form, parseFloat).record.hours, Submit(form, parseFloat).record.value))
  {
  }
}
