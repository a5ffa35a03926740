/** The entities the components share: the backend's enumerations and the rows
    of `daily_logs`, `visits`, `fuel_logs` and `shops` as the client holds them. */
module Domain {
  import opened Calendar

  datatype Option<T> = None | Some(value: T)

  /** `app_role` */
  datatype Role = Admin | Rep | Manager

  /** `daily_log_status` */
  datatype DayStatus = Started | Completed

  /** `visit_outcome` */
  datatype Outcome = OrderTaken | Collection | JustVisit | ShopClosed

  /** The text the outcome enumeration stores for each tag. */
  function OutcomeTag(o: Outcome): (t: string)
    ensures ',' !in t && |t| > 0
  {
    match o
    case OrderTaken => "order_taken"
    case Collection => "collection"
    case JustVisit => "just_visit"
    case ShopClosed => "shop_closed"
  }

  /** Distinct tags have distinct texts. */
  lemma OutcomeTagInjective(a: Outcome, b: Outcome)
    requires OutcomeTag(a) == OutcomeTag(b)
    ensures a == b
  {
  }

  /** The result of one backend write: success, or an error with its message. */
  datatype BackendResult = Ok | Failed(message: string)

  /** A text field as the component's own number parse sees it: blank after
      trimming, not a number, or a number. */
  datatype Reading = Blank | NotANumber | Num(value: real)

  predicate IsWhole(v: real) {
    v.Floor as real == v
  }

  /** A row of `daily_logs`. Odometer readings are whole kilometres; the
      personal and official distances may be fractional and may be null. */
  datatype DailyLog = DailyLog(
    id: string,
    logDate: Date,
    startMeter: Option<nat>,
    endMeter: Option<nat>,
    personalKm: Option<real>,
    officialKm: Option<real>,
    status: DayStatus)

  /** A row of `visits`; `outcome` is the comma-joined tag text. */
  datatype Visit = Visit(
    id: string,
    dailyLogId: string,
    shopId: string,
    outcome: string,
    note: Option<string>,
    gpsLat: Option<real>,
    gpsLng: Option<real>)

  /** A row of `fuel_logs`. */
  datatype FuelLog = FuelLog(id: string, fillDate: Date, meterReading: nat, liters: real)

  /** A row of `shops` as the admin screens hold it. */
  datatype Shop = Shop(
    id: string,
    name: string,
    address: Option<string>,
    phone: Option<string>,
    assignedRepId: Option<string>,
    bpCode: Option<string>,
    town: Option<string>,
    district: Option<string>)

  /** `x || null` on a string: the empty string becomes null. */
  function NonEmpty(s: string): (r: Option<string>)
    ensures r == None <==> s == ""
    ensures r.Some? ==> r.value == s
  {
    if s == "" then None else Some(s)
  }
}
