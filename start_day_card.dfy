/** The start-of-day form: the odometer reading and the vehicle number,
    each with the error it shows, and the decision to start the day. */
module StartDayCard {
  import opened Text
  import opened Domain

  datatype MeterError =
    | MeterRequired    // "Meter reading is required."
    | MeterNotNumber   // "Please enter a valid number."
    | MeterNegative    // "Meter reading cannot be negative."
    | MeterFractional  // "Meter reading must be a whole number."
    | MeterTooHigh     // "Meter reading seems too high. Please check."

  /** The checks on the start reading, in the order they are made: exactly
      the whole numbers 0..999999 pass. */
  function ValidateMeter(input: Reading): (e: Option<MeterError>)
    ensures e.None? <==> input.Num? && IsWhole(input.value) && 0.0 <= input.value <= 999999.0
    ensures e == Some(MeterRequired) <==> input.Blank?
    ensures e == Some(MeterNotNumber) <==> input.NotANumber?
    ensures e == Some(MeterNegative) <==> input.Num? && input.value < 0.0
    ensures e == Some(MeterFractional) <==> input.Num? && input.value >= 0.0 && !IsWhole(input.value)
    ensures e == Some(MeterTooHigh) <==> input.Num? && IsWhole(input.value) && input.value > 999999.0
  {
    match input
    case Blank => Some(MeterRequired)
    case NotANumber => Some(MeterNotNumber)
    case Num(v) =>
      if v < 0.0 then Some(MeterNegative)
      else if !IsWhole(v) then Some(MeterFractional)
      else if v > 999999.0 then Some(MeterTooHigh)
      else None
  }

  /** "Vehicle number is required." is shown exactly for a blank number. */
  predicate VehicleMissing(vehicleNumber: string) {
    Trim(vehicleNumber) == ""
  }

  class StartForm {
    var meter: Reading
    var vehicleNumber: string
    /** The error under the meter field, if any. */
    var meterError: Option<MeterError>
    /** Whether the vehicle error is shown. */
    var vehicleError: bool

    /** The vehicle number starts as the profile's, or blank. */
    constructor (initialVehicleNumber: Option<string>)
      ensures meter == Blank && meterError == None && !vehicleError
      ensures vehicleNumber == (if initialVehicleNumber.Some? then initialVehicleNumber.value else "")
    {
      meter := Blank;
      vehicleNumber := if initialVehicleNumber.Some? then initialVehicleNumber.value else "";
      meterError := None;
      vehicleError := false;
    }

    /** A later, non-empty profile value replaces the field. */
    method SyncInitialVehicle(initialVehicleNumber: Option<string>)
      modifies this
      ensures meter == old(meter) && meterError == old(meterError) && vehicleError == old(vehicleError)
      ensures initialVehicleNumber.Some? && initialVehicleNumber.value != "" ==>
                vehicleNumber == initialVehicleNumber.value
      ensures initialVehicleNumber.None? || initialVehicleNumber.value == "" ==> vehicleNumber == old(vehicleNumber)
    {
      if initialVehicleNumber.Some? && initialVehicleNumber.value != "" {
        vehicleNumber := initialVehicleNumber.value;
      }
    }

    /** Editing the reading re-checks it only while an error is shown. */
    method HandleMeterChange(value: Reading)
      modifies this
      ensures meter == value && vehicleNumber == old(vehicleNumber) && vehicleError == old(vehicleError)
      ensures old(meterError).None? ==> meterError == None
      ensures old(meterError).Some? ==> meterError == ValidateMeter(value)
    {
      meter := value;
      if meterError.Some? {
        meterError := ValidateMeter(value);
      }
    }

    /** Editing the vehicle number always re-checks it. */
    method HandleVehicleChange(value: string)
      modifies this
      ensures vehicleNumber == value && meter == old(meter) && meterError == old(meterError)
      ensures vehicleError <==> VehicleMissing(value)
    {
      vehicleNumber := value;
      vehicleError := Trim(value) == "";
    }

    /** Pressing "Start day": both checks run and both errors are shown;
        the day starts, with the reading as a whole number, only when
        neither fails. */
    method HandleStart() returns (start: Option<(nat, string)>)
      modifies this
      ensures meter == old(meter) && vehicleNumber == old(vehicleNumber)
      ensures meterError == ValidateMeter(old(meter))
      ensures vehicleError <==> VehicleMissing(old(vehicleNumber))
      ensures start.Some? <==> meterError.None? && !vehicleError
      ensures start.Some? ==> start.value.0 as real == meter.value && start.value.1 == vehicleNumber
    {
      meterError := ValidateMeter(meter);
      vehicleError := Trim(vehicleNumber) == "";
      if meterError.Some? || vehicleError {
        return None;
      }
      start := Some((meter.value.Floor as nat, vehicleNumber));
    }
  }
}
