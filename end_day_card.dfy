/** The end-of-day form: validation of the end reading and the personal
    distance, the preview of total and official distance, and the decision
    to submit. The text fields are given as their parsed `Reading`. */
module EndDayCard {
  import opened Domain
  import RepWorkflow
  import StartDayCard

  const MaxMeter: real := 999999.0

  datatype EndError =
    | EndRequired      // "End meter reading is required."
    | EndNotNumber     // "Please enter a valid number."
    | EndNegative      // "Meter reading cannot be negative."
    | EndFractional    // "Meter reading must be a whole number."
    | EndTooHigh       // "Meter reading seems too high. Please check."
    | EndSameAsStart   // "End meter cannot be the same as start meter."
    | EndBelowStart    // "End meter must be greater than start (… km)."

  datatype PersonalError =
    | PersonalNotNumber           // "Please enter a valid number."
    | PersonalNegative            // "Personal KM cannot be negative."
    | PersonalExceeds(total: real) // "Personal KM cannot exceed total (… km)."

  /** `todayLog.start_meter || 0` */
  function StartOf(log: DailyLog): (s: nat)
    ensures log.startMeter.Some? ==> s == log.startMeter.value
    ensures log.startMeter.None? ==> s == 0
  {
    if log.startMeter.Some? then log.startMeter.value else 0
  }

  /** The checks on the end reading, in the order they are made. */
  function ValidateEnd(input: Reading, start: nat): (e: Option<EndError>)
    ensures e.None? <==> input.Num? && IsWhole(input.value) && start as real < input.value <= MaxMeter
    ensures e == Some(EndRequired) <==> input.Blank?
    ensures e == Some(EndNotNumber) <==> input.NotANumber?
    ensures e == Some(EndNegative) <==> input.Num? && input.value < 0.0
    ensures e == Some(EndFractional) <==> input.Num? && input.value >= 0.0 && !IsWhole(input.value)
    ensures e == Some(EndTooHigh) <==> input.Num? && IsWhole(input.value) && input.value > MaxMeter
    ensures e == Some(EndSameAsStart) <==>
              input.Num? && IsWhole(input.value) && 0.0 <= input.value <= MaxMeter && input.value == start as real
    ensures e == Some(EndBelowStart) <==>
              input.Num? && IsWhole(input.value) && 0.0 <= input.value <= MaxMeter && input.value < start as real
  {
    match input
    case Blank => Some(EndRequired)
    case NotANumber => Some(EndNotNumber)
    case Num(v) =>
      if v < 0.0 then Some(EndNegative)
      else if !IsWhole(v) then Some(EndFractional)
      else if v > MaxMeter then Some(EndTooHigh)
      else if v == start as real then Some(EndSameAsStart)
      else if v < start as real then Some(EndBelowStart)
      else None
  }

  /** The day's distance the personal check compares against: end less
      start once the end field parses, otherwise 0. */
  function EnteredTotal(end: Reading, start: nat): real {
    if end.Num? then end.value - start as real else 0.0
  }

  /** The checks on the personal distance; nothing is checked while the
      toggle is off or the field is blank. */
  function ValidatePersonal(hasPersonal: bool, personal: Reading, end: Reading, start: nat): (e: Option<PersonalError>)
    ensures !hasPersonal || personal.Blank? ==> e.None?
    ensures hasPersonal && !personal.Blank? ==>
              (e.None? <==> personal.Num? && 0.0 <= personal.value <= EnteredTotal(end, start))
    ensures e.Some? && e.value.PersonalExceeds? ==> e.value.total == EnteredTotal(end, start)
  {
    if !hasPersonal || personal.Blank? then None
    else match personal
      case NotANumber => Some(PersonalNotNumber)
      case Num(v) =>
        if v < 0.0 then Some(PersonalNegative)
        else if v > EnteredTotal(end, start) then Some(PersonalExceeds(EnteredTotal(end, start)))
        else None
  }

  /** `hasPersonal ? parseFloat(personalKm) || 0 : 0` */
  function PersonalVal(hasPersonal: bool, personal: Reading): (p: real)
    ensures !hasPersonal || !personal.Num? ==> p == 0.0
    ensures hasPersonal && personal.Num? ==> p == personal.value
  {
    if hasPersonal && personal.Num? then personal.value else 0.0
  }

  predicate IsValid(end: Reading, hasPersonal: bool, personal: Reading, start: nat) {
    end.Num? && end.value > start as real
    && ValidateEnd(end, start).None? && ValidatePersonal(hasPersonal, personal, end, start).None?
  }

  /** The previewed total, 0 unless the form is valid. */
  function TotalKm(end: Reading, hasPersonal: bool, personal: Reading, start: nat): (t: real)
    ensures IsValid(end, hasPersonal, personal, start) ==> t == end.value - start as real && t > 0.0
    ensures !IsValid(end, hasPersonal, personal, start) ==> t == 0.0
  {
    if IsValid(end, hasPersonal, personal, start) then end.value - start as real else 0.0
  }

  /** The previewed official distance: `Math.max(0, total - personal)`, the
      least value that is neither negative nor below total minus personal. */
  function OfficialKm(end: Reading, hasPersonal: bool, personal: Reading, start: nat): (k: real)
    ensures k >= 0.0
    ensures k >= TotalKm(end, hasPersonal, personal, start) - PersonalVal(hasPersonal, personal)
    ensures k == 0.0 || k == TotalKm(end, hasPersonal, personal, start) - PersonalVal(hasPersonal, personal)
  {
    var d := TotalKm(end, hasPersonal, personal, start) - PersonalVal(hasPersonal, personal);
    if d > 0.0 then d else 0.0
  }

  /** On a valid form, where the preview is shown, the official distance
      lies between 0 and the total, and official plus personal is the
      total. */
  lemma PreviewBounds(end: Reading, hasPersonal: bool, personal: Reading, start: nat)
    requires IsValid(end, hasPersonal, personal, start)
    ensures var t := TotalKm(end, hasPersonal, personal, start);
            var k := OfficialKm(end, hasPersonal, personal, start);
            0.0 <= k <= t && k + PersonalVal(hasPersonal, personal) == t
  {
  }

  /** What pressing "End day" does: show the end error, else the personal
      error, else hand the reading and the personal distance to the
      workflow. */
  datatype EndAction =
    | ShowEndError(endError: EndError)
    | ShowPersonalError(personalError: PersonalError)
    | SubmitEnd(endMeter: nat, personalKm: real)

  function HandleEnd(end: Reading, hasPersonal: bool, personal: Reading, start: nat): (a: EndAction)
    ensures a.ShowEndError? <==> ValidateEnd(end, start).Some?
    ensures a.ShowEndError? ==> a.endError == ValidateEnd(end, start).value
    ensures a.ShowPersonalError? ==>
              ValidateEnd(end, start).None? && Some(a.personalError) == ValidatePersonal(hasPersonal, personal, end, start)
    ensures a.SubmitEnd? <==> IsValid(end, hasPersonal, personal, start)
    ensures a.SubmitEnd? ==>
              a.endMeter as real == end.value && start < a.endMeter <= 999999 && a.personalKm == PersonalVal(hasPersonal, personal)
  {
    var endErr := ValidateEnd(end, start);
    var persErr := ValidatePersonal(hasPersonal, personal, end, start);
    if endErr.Some? then ShowEndError(endErr.value)
    else if persErr.Some? then ShowPersonalError(persErr.value)
    else SubmitEnd(end.value.Floor as nat, PersonalVal(hasPersonal, personal))
  }

  /** The official distance the workflow stores for a submitted form is the
      one the form previewed. */
  lemma StoredMatchesPreview(log: DailyLog, end: Reading, hasPersonal: bool, personal: Reading)
    requires HandleEnd(end, hasPersonal, personal, StartOf(log)).SubmitEnd?
    ensures var a := HandleEnd(end, hasPersonal, personal, StartOf(log));
            RepWorkflow.OfficialKm(a.endMeter, log.startMeter, a.personalKm)
              == OfficialKm(end, hasPersonal, personal, StartOf(log))
  {
  }

  /** An end reading the form accepts would also pass as a start reading
      the next day. */
  lemma AcceptedEndIsValidStart(end: Reading, start: nat)
    requires ValidateEnd(end, start).None?
    ensures StartDayCard.ValidateMeter(end).None?
  {
  }
}
