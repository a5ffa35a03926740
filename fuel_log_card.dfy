/** The fuel-entry form: three fields, each with the error it shows, the
    change handlers that re-check a field while its error is shown, and
    the submit step. Today's date, from the clock, is a parameter. */
module FuelLogCard {
  import opened Calendar
  import opened Domain

  /** The date field: empty, a text no date parse accepts, or a date. */
  datatype DateInput = NoDate | BadDate | OnDate(date: Date)

  datatype FuelError =
    | DateRequired     // "Date is required."
    | FutureDate       // "Cannot be a future date."
    | ValueRequired    // "Meter reading is required." / "Liters is required."
    | NotNumber        // "Enter a valid number."
    | Negative         // "Cannot be negative."
    | Zero             // "Must be greater than 0."
    | Fractional       // "Must be a whole number."
    | MeterTooHigh     // "Value seems too high."
    | LitersTooHigh    // "Value seems too high (max 500L)."

  /** Exactly the whole numbers 1..999999 pass; 0 does not. */
  function ValidateMeter(input: Reading): (e: Option<FuelError>)
    ensures e.None? <==> input.Num? && IsWhole(input.value) && 1.0 <= input.value <= 999999.0
    ensures e == Some(Zero) <==> input.Num? && input.value == 0.0
    ensures e == Some(Negative) <==> input.Num? && input.value < 0.0
    ensures e == Some(ValueRequired) <==> input.Blank?
  {
    match input
    case Blank => Some(ValueRequired)
    case NotANumber => Some(NotNumber)
    case Num(v) =>
      if v < 0.0 then Some(Negative)
      else if v == 0.0 then Some(Zero)
      else if !IsWhole(v) then Some(Fractional)
      else if v > 999999.0 then Some(MeterTooHigh)
      else None
  }

  /** Exactly the amounts in (0, 500] pass. */
  function ValidateLiters(input: Reading): (e: Option<FuelError>)
    ensures e.None? <==> input.Num? && 0.0 < input.value <= 500.0
    ensures e == Some(LitersTooHigh) <==> input.Num? && input.value > 500.0
    ensures e == Some(ValueRequired) <==> input.Blank?
  {
    match input
    case Blank => Some(ValueRequired)
    case NotANumber => Some(NotNumber)
    case Num(v) =>
      if v < 0.0 then Some(Negative)
      else if v == 0.0 then Some(Zero)
      else if v > 500.0 then Some(LitersTooHigh)
      else None
  }

  /** An empty date, or one after the end of today, is refused. A text
      that does not parse compares as not later, so it passes. */
  function ValidateDate(input: DateInput, today: Date): (e: Option<FuelError>)
    ensures e.None? <==> input.BadDate? || (input.OnDate? && NotAfter(input.date, today))
    ensures e == Some(DateRequired) <==> input.NoDate?
    ensures e == Some(FutureDate) <==> input.OnDate? && Before(today, input.date)
  {
    match input
    case NoDate => Some(DateRequired)
    case BadDate => None
    case OnDate(d) =>
      Total(d, today);
      if Before(today, d) then Some(FutureDate) else None
  }

  /** `dErr || mErr || lErr`: the first error in field order. */
  function FirstError(d: Option<FuelError>, m: Option<FuelError>, l: Option<FuelError>): (e: Option<FuelError>)
    ensures e.None? <==> d.None? && m.None? && l.None?
    ensures d.Some? ==> e == d
    ensures d.None? && m.Some? ==> e == m
    ensures d.None? && m.None? ==> e == l
  {
    if d.Some? then d else if m.Some? then m else l
  }

  /** The values handed to the workflow: the date field, the whole meter
      reading and the liters. */
  datatype NewFuel = NewFuel(fillDate: DateInput, meterReading: nat, liters: real)

  class FuelForm {
    var showForm: bool
    var fillDate: DateInput
    var meterReading: Reading
    var liters: Reading
    var dateError: Option<FuelError>
    var meterError: Option<FuelError>
    var litersError: Option<FuelError>

    /** The form starts closed, dated today, with empty fields. */
    constructor (today: Date)
      ensures !showForm && fillDate == OnDate(today) && meterReading == Blank && liters == Blank
      ensures dateError == None && meterError == None && litersError == None
    {
      showForm := false;
      fillDate := OnDate(today);
      meterReading := Blank;
      liters := Blank;
      dateError := None;
      meterError := None;
      litersError := None;
    }

    method HandleMeterChange(value: Reading)
      modifies this
      ensures meterReading == value
      ensures old(meterError).None? ==> meterError == None
      ensures old(meterError).Some? ==> meterError == ValidateMeter(value)
      ensures showForm == old(showForm) && fillDate == old(fillDate) && liters == old(liters)
      ensures dateError == old(dateError) && litersError == old(litersError)
    {
      meterReading := value;
      if meterError.Some? {
        meterError := ValidateMeter(value);
      }
    }

    method HandleLitersChange(value: Reading)
      modifies this
      ensures liters == value
      ensures old(litersError).None? ==> litersError == None
      ensures old(litersError).Some? ==> litersError == ValidateLiters(value)
      ensures showForm == old(showForm) && fillDate == old(fillDate) && meterReading == old(meterReading)
      ensures dateError == old(dateError) && meterError == old(meterError)
    {
      liters := value;
      if litersError.Some? {
        litersError := ValidateLiters(value);
      }
    }

    method HandleDateChange(value: DateInput, today: Date)
      modifies this
      ensures fillDate == value
      ensures old(dateError).None? ==> dateError == None
      ensures old(dateError).Some? ==> dateError == ValidateDate(value, today)
      ensures showForm == old(showForm) && meterReading == old(meterReading) && liters == old(liters)
      ensures meterError == old(meterError) && litersError == old(litersError)
    {
      fillDate := value;
      if dateError.Some? {
        dateError := ValidateDate(value, today);
      }
    }

    /** Pressing "Add": all three checks run and show their errors; the
        first one, in field order, is the toast. Only when all pass is the
        entry handed on (`submit`), and when that call returns without
        throwing (`thrown` false) the meter and liters are cleared, the
        errors hidden and the form closed; the date is kept. */
    method HandleSubmit(today: Date, thrown: bool) returns (toast: Option<FuelError>, submit: Option<NewFuel>)
      modifies this
      ensures fillDate == old(fillDate)
      ensures toast == FirstError(ValidateDate(old(fillDate), today), ValidateMeter(old(meterReading)),
                                  ValidateLiters(old(liters)))
      ensures submit.Some? <==> toast.None?
      ensures submit.Some? ==> submit.value.fillDate == old(fillDate)
                               && submit.value.meterReading as real == old(meterReading).value
                               && 1 <= submit.value.meterReading <= 999999
                               && submit.value.liters == old(liters).value && 0.0 < submit.value.liters <= 500.0
      ensures toast.Some? || thrown ==>
                showForm == old(showForm) && meterReading == old(meterReading) && liters == old(liters)
                && dateError == ValidateDate(old(fillDate), today) && meterError == ValidateMeter(old(meterReading))
                && litersError == ValidateLiters(old(liters))
      ensures toast.None? && !thrown ==>
                !showForm && meterReading == Blank && liters == Blank
                && dateError == None && meterError == None && litersError == None
    {
      var dErr := ValidateDate(fillDate, today);
      var mErr := ValidateMeter(meterReading);
      var lErr := ValidateLiters(liters);
      dateError, meterError, litersError := dErr, mErr, lErr;
      toast := FirstError(dErr, mErr, lErr);
      if toast.Some? {
        return toast, None;
      }
      submit := Some(NewFuel(fillDate, meterReading.value.Floor as nat, liters.value));
      if !thrown {
        meterReading, liters := Blank, Blank;
        meterError, litersError, dateError := None, None, None;
        showForm := false;
      }
    }
  }
}
