/** The monthly running chart of one rep: the date windows it queries, the
    itinerary rows grouped by day, the fuel rows, the summary figures and
    the fixed layout rules of the printed chart. */
module ReportsPanel {
  import opened Calendar
  import opened Domain

  // ---------------------------------------------------------------------
  // Windows

  /** The two windows a report queries: the selected month, and the
      previous month (for the last reading before this month). Nothing is
      queried without a selected rep and month. */
  function ReportWindows(selectedRep: string, selectedMonth: Option<(int, int)>): (r: Option<(Window, Window)>)
    requires selectedMonth.Some? ==> 1 <= selectedMonth.value.1 <= 12
    ensures r.Some? <==> selectedRep != "" && selectedMonth.Some?
    ensures r.Some? ==> r.value.0 == MonthWindow(selectedMonth.value.0, selectedMonth.value.1)
    ensures r.Some? ==> r.value.1.end == r.value.0.start
  {
    if selectedRep == "" || selectedMonth.None? then None
    else
      var (y, m) := selectedMonth.value;
      Some((MonthWindow(y, m), PrevMonthWindow(y, m)))
  }

  /** The windows of a January report: the month itself, and December of
      the year before. */
  lemma JanuaryReport(rep: string, y: int)
    requires rep != ""
    ensures ReportWindows(rep, Some((y, 1)))
         == Some((Window(Date(y, 1, 1), Date(y, 2, 1)), Window(Date(y - 1, 12, 1), Date(y, 1, 1))))
  {
  }

  // ---------------------------------------------------------------------
  // Itinerary rows

  /** The joined shop of a visit, when the join found one. */
  datatype ShopRef = ShopRef(name: string, town: Option<string>)

  /** A visit as the report fetches it, in visit-time order. */
  datatype ReportVisit = ReportVisit(dailyLogId: string, shop: Option<ShopRef>)

  /** One itinerary row; an absent date or meter is a blank cell. */
  datatype ItineraryRow = ItineraryRow(
    date: Option<Date>,
    customer: string,
    description: string,
    startMeter: Option<nat>,
    endMeter: Option<nat>,
    kmsRun: Option<int>)

  const BlankRow := ItineraryRow(None, "", "", None, None, None)

  /** The distance of a day: end minus start when both readings exist. */
  function KmsRun(log: DailyLog): (k: Option<int>)
    ensures k.Some? <==> log.startMeter.Some? && log.endMeter.Some?
    ensures k.Some? ==> k.value == log.endMeter.value - log.startMeter.value
  {
    if log.startMeter.Some? && log.endMeter.Some? then Some(log.endMeter.value - log.startMeter.value) else None
  }

  /** The visits of one day, in their order. */
  function DayVisits(visits: seq<ReportVisit>, logId: string): (r: seq<ReportVisit>)
    ensures |r| <= |visits|
    ensures forall i :: 0 <= i < |r| ==> r[i].dailyLogId == logId && r[i] in visits
    ensures forall v :: v in visits && v.dailyLogId == logId ==> v in r
  {
    if visits == [] then []
    else
      var rest := DayVisits(visits[1..], logId);
      assert forall v :: v in visits ==> v == visits[0] || v in visits[1..];
      assert forall v :: v in visits[1..] ==> v in visits;
      if visits[0].dailyLogId == logId then [visits[0]] + rest else rest
  }

  /** A day's visits keep the order of the fetched visits: those of a
      concatenation are those of the first part followed by those of the
      second. */
  lemma {:induction false} DayVisitsAppend(a: seq<ReportVisit>, b: seq<ReportVisit>, logId: string)
    ensures DayVisits(a + b, logId) == DayVisits(a, logId) + DayVisits(b, logId)
    decreases |a|
  {
    if a == [] {
      assert a + b == b;
    } else {
      assert (a + b)[0] == a[0];
      assert (a + b)[1..] == a[1..] + b;
      DayVisitsAppend(a[1..], b, logId);
    }
  }

  /** The shop name, or "Unknown" without one. */
  function Customer(v: ReportVisit): string {
    if v.shop.Some? && v.shop.value.name != "" then v.shop.value.name else "Unknown"
  }

  function Description(v: ReportVisit): string {
    if v.shop.Some? && v.shop.value.town.Some? then v.shop.value.town.value else ""
  }

  /** The row of a day without visits. */
  function NoVisitsRow(log: DailyLog): ItineraryRow {
    ItineraryRow(Some(log.logDate), "No visits", "", log.startMeter, log.endMeter, KmsRun(log))
  }

  /** The row of a visit; only the day's first row carries the date, the
      meters and the distance. */
  function VisitRow(log: DailyLog, v: ReportVisit, first: bool): ItineraryRow {
    if first then ItineraryRow(Some(log.logDate), Customer(v), Description(v), log.startMeter, log.endMeter, KmsRun(log))
    else ItineraryRow(None, Customer(v), Description(v), None, None, None)
  }

  /** The rows of one day: one "No visits" row without visits, otherwise
      one row per visit in visit order, the first carrying the day's date,
      meters and distance and the others leaving them blank. */
  function DayRows(log: DailyLog, dayVisits: seq<ReportVisit>): (r: seq<ItineraryRow>)
    ensures |r| == if dayVisits == [] then 1 else |dayVisits|
    ensures dayVisits == [] ==> r == [NoVisitsRow(log)]
    ensures r[0].date == Some(log.logDate) && r[0].kmsRun == KmsRun(log)
    ensures r[0].startMeter == log.startMeter && r[0].endMeter == log.endMeter
    ensures forall k :: 0 < k < |r| ==> r[k].date == None && r[k].startMeter == None
                                         && r[k].endMeter == None && r[k].kmsRun == None
    ensures dayVisits != [] ==> forall k :: 0 <= k < |r| ==>
              r[k].customer == Customer(dayVisits[k]) && r[k].description == Description(dayVisits[k])
  {
    if dayVisits == [] then [NoVisitsRow(log)]
    else seq(|dayVisits|, k requires 0 <= k < |dayVisits| => VisitRow(log, dayVisits[k], k == 0))
  }

  /** All itinerary rows: the days in log order. */
  function RowsFor(logs: seq<DailyLog>, visits: seq<ReportVisit>): seq<ItineraryRow>
    decreases |logs|
  {
    if logs == [] then []
    else RowsFor(logs[..|logs| - 1], visits) + DayRows(logs[|logs| - 1], DayVisits(visits, logs[|logs| - 1].id))
  }

  /** The number of visits the rows show. */
  function VisitTotal(logs: seq<DailyLog>, visits: seq<ReportVisit>): nat
    decreases |logs|
  {
    if logs == [] then 0
    else VisitTotal(logs[..|logs| - 1], visits) + |DayVisits(visits, logs[|logs| - 1].id)|
  }

  /** The number of rows a day takes: its visits, but at least one. */
  function RowTotal(logs: seq<DailyLog>, visits: seq<ReportVisit>): nat
    decreases |logs|
  {
    if logs == [] then 0
    else
      var n := |DayVisits(visits, logs[|logs| - 1].id)|;
      RowTotal(logs[..|logs| - 1], visits) + (if n == 0 then 1 else n)
  }

  /** The itinerary has max(1, N) rows per day of N visits. */
  lemma {:induction false} RowCount(logs: seq<DailyLog>, visits: seq<ReportVisit>)
    ensures |RowsFor(logs, visits)| == RowTotal(logs, visits)
    ensures RowTotal(logs, visits) >= |logs|
    decreases |logs|
  {
    if logs != [] {
      RowCount(logs[..|logs| - 1], visits);
    }
  }

  /** The number of visits whose log is one of `ids`. */
  function CountAttached(visits: seq<ReportVisit>, ids: set<string>): nat {
    if visits == [] then 0
    else (if visits[0].dailyLogId in ids then 1 else 0) + CountAttached(visits[1..], ids)
  }

  lemma {:induction false} CountAttachedAdd(visits: seq<ReportVisit>, ids: set<string>, x: string)
    requires x !in ids
    ensures CountAttached(visits, ids + {x}) == CountAttached(visits, ids) + |DayVisits(visits, x)|
  {
    if visits != [] {
      CountAttachedAdd(visits[1..], ids, x);
    }
  }

  lemma {:induction false} CountAttachedAll(visits: seq<ReportVisit>, ids: set<string>)
    requires forall i :: 0 <= i < |visits| ==> visits[i].dailyLogId in ids
    ensures CountAttached(visits, ids) == |visits|
  {
    if visits != [] {
      CountAttachedAll(visits[1..], ids);
    }
  }

  function LogIds(logs: seq<DailyLog>): set<string> {
    set i | 0 <= i < |logs| :: logs[i].id
  }

  predicate DistinctIds(logs: seq<DailyLog>) {
    forall i, j :: 0 <= i < j < |logs| ==> logs[i].id != logs[j].id
  }

  /** With distinct log ids, the visit total counts every visit attached
      to one of the logs, once. */
  lemma {:induction false} VisitTotalCountsAttached(logs: seq<DailyLog>, visits: seq<ReportVisit>)
    requires DistinctIds(logs)
    ensures VisitTotal(logs, visits) == CountAttached(visits, LogIds(logs))
    decreases |logs|
  {
    if logs == [] {
      assert LogIds(logs) == {};
      CountAttachedNone(visits);
    } else {
      var init := logs[..|logs| - 1];
      var last := logs[|logs| - 1];
      assert LogIds(logs) == LogIds(init) + {last.id} by {
        assert forall i :: 0 <= i < |init| ==> init[i] == logs[i];
      }
      assert last.id !in LogIds(init) by {
        assert forall i :: 0 <= i < |init| ==> init[i] == logs[i];
      }
      VisitTotalCountsAttached(init, visits);
      CountAttachedAdd(visits, LogIds(init), last.id);
    }
  }

  lemma {:induction false} CountAttachedNone(visits: seq<ReportVisit>)
    ensures CountAttached(visits, {}) == 0
  {
    if visits != [] {
      CountAttachedNone(visits[1..]);
    }
  }

  /** The visits are fetched by the month's log ids, so each is attached to
      one of them; the summary's visit count is then the number of visits
      fetched. */
  lemma TotalVisitsIsFetched(logs: seq<DailyLog>, visits: seq<ReportVisit>)
    requires DistinctIds(logs)
    requires forall i :: 0 <= i < |visits| ==> visits[i].dailyLogId in LogIds(logs)
    ensures VisitTotal(logs, visits) == |visits|
  {
    VisitTotalCountsAttached(logs, visits);
    CountAttachedAll(visits, LogIds(logs));
  }

  /** Pushes the rows of one day. */
  method PushDayRows(rows0: seq<ItineraryRow>, log: DailyLog, dayVisits: seq<ReportVisit>)
      returns (rows: seq<ItineraryRow>, counted: nat)
    ensures rows == rows0 + DayRows(log, dayVisits)
    ensures counted == |dayVisits|
  {
    rows := rows0;
    counted := 0;
    if |dayVisits| == 0 {
      rows := rows + [NoVisitsRow(log)];
      return;
    }
    ghost var day := DayRows(log, dayVisits);
    var i := 0;
    while i < |dayVisits|
      invariant 0 <= i <= |dayVisits| && counted == i
      invariant rows == rows0 + day[..i]
    {
      counted := counted + 1;
      assert day[..i + 1] == day[..i] + [VisitRow(log, dayVisits[i], i == 0)];
      rows := rows + [VisitRow(log, dayVisits[i], i == 0)];
      i := i + 1;
    }
    assert day[..i] == day;
  }

  /** The row loop: the rows of each day in log order, and the number of
      visits shown. */
  method BuildRows(logs: seq<DailyLog>, visits: seq<ReportVisit>) returns (rows: seq<ItineraryRow>, totalVisitCount: nat)
    ensures rows == RowsFor(logs, visits)
    ensures totalVisitCount == VisitTotal(logs, visits)
    ensures |rows| == RowTotal(logs, visits)
  {
    rows := [];
    totalVisitCount := 0;
    var i := 0;
    assert logs[..0] == [];
    while i < |logs|
      invariant 0 <= i <= |logs|
      invariant rows == RowsFor(logs[..i], visits)
      invariant totalVisitCount == VisitTotal(logs[..i], visits)
    {
      var log := logs[i];
      assert logs[..i + 1][..i] == logs[..i] && logs[..i + 1][i] == log;
      var dayVisits := DayVisits(visits, log.id);
      var n;
      rows, n := PushDayRows(rows, log, dayVisits);
      totalVisitCount := totalVisitCount + n;
      i := i + 1;
    }
    assert logs[..i] == logs;
    RowCount(logs, visits);
  }

  // ---------------------------------------------------------------------
  // Fuel rows

  /** A fuel row as listed and edited: the log's fields. */
  datatype FuelRow = FuelRow(id: string, date: Date, mr: nat, ltrs: real)

  function FuelRows(fuel: seq<FuelLog>): (r: seq<FuelRow>)
    ensures |r| == |fuel|
    ensures forall i :: 0 <= i < |fuel| ==>
              r[i] == FuelRow(fuel[i].id, fuel[i].fillDate, fuel[i].meterReading, fuel[i].liters)
  {
    seq(|fuel|, i requires 0 <= i < |fuel| => FuelRow(fuel[i].id, fuel[i].fillDate, fuel[i].meterReading, fuel[i].liters))
  }

  // ---------------------------------------------------------------------
  // Summary

  /** `Number(x) || 0` on a nullable reading. */
  function OrZero(m: Option<nat>): nat {
    if m.Some? then m.value else 0
  }

  function OrZeroReal(x: Option<real>): real {
    if x.Some? then x.value else 0.0
  }

  /** The end reading of the month's last log, 0 without one. */
  function ThisMonthEnd(logs: seq<DailyLog>): nat {
    if |logs| > 0 then OrZero(logs[|logs| - 1].endMeter) else 0
  }

  /** The start reading of the month's first log, 0 without one. */
  function ThisMonthStart(logs: seq<DailyLog>): nat {
    if |logs| > 0 then OrZero(logs[0].startMeter) else 0
  }

  /** The end reading of the last log before the month, 0 without one. */
  function LastMonthEnd(prev: Option<DailyLog>): nat {
    if prev.Some? then OrZero(prev.value.endMeter) else 0
  }

  /** The month's distance: this month's end reading minus an anchor, the
      last month's end reading when there is one and the month's first
      start reading otherwise; 0 without an end reading or any anchor. */
  function TotalKms(thisEnd: nat, thisStart: nat, lastEnd: nat): (k: int)
    ensures thisEnd > 0 && lastEnd > 0 ==> k == thisEnd - lastEnd
    ensures thisEnd > 0 && lastEnd == 0 && thisStart > 0 ==> k == thisEnd - thisStart
    ensures thisEnd == 0 || (lastEnd == 0 && thisStart == 0) ==> k == 0
  {
    if thisEnd > 0 && (lastEnd > 0 || thisStart > 0) then thisEnd - (if lastEnd > 0 then lastEnd else thisStart) else 0
  }

  function SumPersonal(logs: seq<DailyLog>): real
    decreases |logs|
  {
    if logs == [] then 0.0 else SumPersonal(logs[..|logs| - 1]) + OrZeroReal(logs[|logs| - 1].personalKm)
  }

  function SumOfficial(logs: seq<DailyLog>): real
    decreases |logs|
  {
    if logs == [] then 0.0 else SumOfficial(logs[..|logs| - 1]) + OrZeroReal(logs[|logs| - 1].officialKm)
  }

  function SumLiters(fuel: seq<FuelLog>): real
    decreases |fuel|
  {
    if fuel == [] then 0.0 else SumLiters(fuel[..|fuel| - 1]) + fuel[|fuel| - 1].liters
  }

  /** The sums add up over consecutive stretches of logs. */
  lemma {:induction false} SumsSplit(a: seq<DailyLog>, b: seq<DailyLog>)
    ensures SumPersonal(a + b) == SumPersonal(a) + SumPersonal(b)
    ensures SumOfficial(a + b) == SumOfficial(a) + SumOfficial(b)
    decreases |b|
  {
    if b == [] {
      assert a + b == a;
    } else {
      var b' := b[..|b| - 1];
      assert (a + b)[..|a + b| - 1] == a + b';
      SumsSplit(a, b');
    }
  }

  /** The litres add up over consecutive stretches of fills. */
  lemma {:induction false} LitersSplit(a: seq<FuelLog>, b: seq<FuelLog>)
    ensures SumLiters(a + b) == SumLiters(a) + SumLiters(b)
    decreases |b|
  {
    if b == [] {
      assert a + b == a;
    } else {
      var b' := b[..|b| - 1];
      assert (a + b)[..|a + b| - 1] == a + b';
      LitersSplit(a, b');
    }
  }

  /** A log without a personal reading adds nothing. */
  lemma {:induction false} MissingPersonalIsZero(logs: seq<DailyLog>)
    requires forall i :: 0 <= i < |logs| ==> logs[i].personalKm.None?
    ensures SumPersonal(logs) == 0.0
    decreases |logs|
  {
    if logs != [] {
      MissingPersonalIsZero(logs[..|logs| - 1]);
    }
  }

  /** The chart's summary; an absent ratio is the dash sentinel. */
  datatype Summary = Summary(
    thisMonthEnd: nat,
    lastMonthEnd: nat,
    totalKms: int,
    officialKms: real,
    personalKms: real,
    totalLtrs: real,
    avgKmsPerLtr: Option<real>,
    personalLtrs: Option<real>,
    workingDays: nat,
    totalVisits: nat)

  function MakeSummary(logs: seq<DailyLog>, prev: Option<DailyLog>, fuel: seq<FuelLog>, totalVisits: nat): (s: Summary)
    ensures s.totalKms == TotalKms(ThisMonthEnd(logs), ThisMonthStart(logs), LastMonthEnd(prev))
    ensures s.workingDays == |logs| && s.totalVisits == totalVisits
    ensures s.thisMonthEnd == ThisMonthEnd(logs) && s.lastMonthEnd == LastMonthEnd(prev)
    ensures s.totalLtrs == SumLiters(fuel)
    ensures s.personalKms == SumPersonal(logs) && s.officialKms == SumOfficial(logs)
    ensures s.avgKmsPerLtr.None? <==> s.totalLtrs <= 0.0
    ensures s.personalLtrs.None? <==> s.totalLtrs <= 0.0 || s.totalKms <= 0
    ensures s.avgKmsPerLtr.Some? ==> s.avgKmsPerLtr.value * s.totalLtrs == s.totalKms as real
    ensures s.personalLtrs.Some? ==>
              s.personalLtrs.value * s.totalKms as real == s.personalKms * s.totalLtrs
  {
    var thisEnd := ThisMonthEnd(logs);
    var lastEnd := LastMonthEnd(prev);
    var kms := TotalKms(thisEnd, ThisMonthStart(logs), lastEnd);
    var personal := SumPersonal(logs);
    var liters := SumLiters(fuel);
    Summary(
      thisEnd, lastEnd, kms, SumOfficial(logs), personal, liters,
      if liters > 0.0 then Some(kms as real / liters) else None,
      if liters > 0.0 && kms > 0 then Some((personal / kms as real) * liters) else None,
      |logs|, totalVisits)
  }

  /** Consecutive logs of a continuous odometer: every log has both
      readings and each day starts where the previous one ended. */
  predicate Continuous(logs: seq<DailyLog>) {
    && (forall i :: 0 <= i < |logs| ==> logs[i].startMeter.Some? && logs[i].endMeter.Some?)
    && (forall i :: 0 < i < |logs| ==> logs[i].startMeter == logs[i - 1].endMeter)
  }

  /** The sum of the days' distances. */
  function SumRuns(logs: seq<DailyLog>): int
    requires forall i :: 0 <= i < |logs| ==> logs[i].startMeter.Some? && logs[i].endMeter.Some?
    decreases |logs|
  {
    if logs == [] then 0
    else SumRuns(logs[..|logs| - 1]) + (logs[|logs| - 1].endMeter.value - logs[|logs| - 1].startMeter.value)
  }

  /** Over a continuous odometer the days' distances telescope to the last
      end reading minus the first start reading. */
  lemma {:induction false} Telescope(logs: seq<DailyLog>)
    requires |logs| > 0 && Continuous(logs)
    ensures SumRuns(logs) == logs[|logs| - 1].endMeter.value - logs[0].startMeter.value
    decreases |logs|
  {
    if |logs| > 1 {
      var init := logs[..|logs| - 1];
      assert Continuous(init) by {
        assert forall i :: 0 <= i < |init| ==> init[i] == logs[i];
      }
      Telescope(init);
      assert logs[|logs| - 1].startMeter == logs[|logs| - 2].endMeter;
    }
  }

  /** The month's total is the sum of the days' distances plus the gap
      between the anchor and the month's first start reading: with last
      month's end reading as the anchor, the kilometres driven between the
      two months count too. */
  lemma TotalKmsDecomposition(logs: seq<DailyLog>, prev: Option<DailyLog>)
    requires |logs| > 0 && Continuous(logs)
    requires logs[|logs| - 1].endMeter.value > 0 && logs[0].startMeter.value > 0
    ensures var lastEnd := LastMonthEnd(prev);
            var anchor := if lastEnd > 0 then lastEnd else logs[0].startMeter.value;
            TotalKms(ThisMonthEnd(logs), ThisMonthStart(logs), lastEnd)
              == SumRuns(logs) + (logs[0].startMeter.value - anchor)
  {
    Telescope(logs);
  }

  /** In particular, when last month ended where this month starts (or
      there is no reading of last month), the total is the sum of the
      days' distances. */
  lemma TotalKmsIsSumOfRuns(logs: seq<DailyLog>, prev: Option<DailyLog>)
    requires |logs| > 0 && Continuous(logs)
    requires logs[|logs| - 1].endMeter.value > 0 && logs[0].startMeter.value > 0
    requires LastMonthEnd(prev) == 0 || LastMonthEnd(prev) == logs[0].startMeter.value
    ensures TotalKms(ThisMonthEnd(logs), ThisMonthStart(logs), LastMonthEnd(prev)) == SumRuns(logs)
  {
    TotalKmsDecomposition(logs, prev);
  }

  // ---------------------------------------------------------------------
  // The printed chart

  const MinItineraryRows: nat := 10

  /** The itinerary grid is padded with blank rows to three more than the
      rows, and to at least ten. */
  method PadRows(rows: seq<ItineraryRow>) returns (table: seq<ItineraryRow>)
    ensures |table| == if |rows| + 3 > MinItineraryRows then |rows| + 3 else MinItineraryRows
    ensures table[..|rows|] == rows
    ensures forall k :: |rows| <= k < |table| ==> table[k] == BlankRow
  {
    table := rows;
    var minRows := if |rows| + 3 > MinItineraryRows then |rows| + 3 else MinItineraryRows;
    while |table| < minRows
      invariant |rows| <= |table| <= minRows
      invariant table[..|rows|] == rows
      invariant forall k :: |rows| <= k < |table| ==> table[k] == BlankRow
      decreases minRows - |table|
    {
      table := table + [BlankRow];
    }
  }

  const FuelSlots: nat := 12

  /** A cell of the fuel grid. */
  datatype FuelCell = Label(text: string) | DateCell(d: Date) | ReadingCell(n: nat) | LitersCell(l: real) | Empty

  /** Slot i of each fuel row: the i-th fuel log's field, or empty. */
  function DateSlot(fuel: seq<FuelLog>, i: nat): FuelCell {
    if i < |fuel| then DateCell(fuel[i].fillDate) else Empty
  }

  function ReadingSlot(fuel: seq<FuelLog>, i: nat): FuelCell {
    if i < |fuel| then ReadingCell(fuel[i].meterReading) else Empty
  }

  function LitersSlot(fuel: seq<FuelLog>, i: nat): FuelCell {
    if i < |fuel| then LitersCell(fuel[i].liters) else Empty
  }

  /** The fuel grid: a label and twelve slots per row; slot i holds the
      i-th fuel log, later slots are empty, and logs beyond the twelfth
      are not printed. */
  method FuelGrid(fuel: seq<FuelLog>) returns (dateRow: seq<FuelCell>, mrRow: seq<FuelCell>, ltrsRow: seq<FuelCell>)
    ensures |dateRow| == |mrRow| == |ltrsRow| == FuelSlots + 1
    ensures dateRow[0] == Label("DATE") && mrRow[0] == Label("MR") && ltrsRow[0] == Label("LTRS")
    ensures forall k :: 1 <= k <= FuelSlots && k <= |fuel| ==>
              dateRow[k] == DateCell(fuel[k - 1].fillDate) && mrRow[k] == ReadingCell(fuel[k - 1].meterReading)
              && ltrsRow[k] == LitersCell(fuel[k - 1].liters)
    ensures forall k :: |fuel| < k <= FuelSlots ==> dateRow[k] == Empty && mrRow[k] == Empty && ltrsRow[k] == Empty
  {
    dateRow, mrRow, ltrsRow := [Label("DATE")], [Label("MR")], [Label("LTRS")];
    for i := 0 to FuelSlots
      invariant |dateRow| == |mrRow| == |ltrsRow| == i + 1
      invariant dateRow[0] == Label("DATE") && mrRow[0] == Label("MR") && ltrsRow[0] == Label("LTRS")
      invariant forall k :: 1 <= k <= i ==> dateRow[k] == DateSlot(fuel, k - 1)
      invariant forall k :: 1 <= k <= i ==> mrRow[k] == ReadingSlot(fuel, k - 1)
      invariant forall k :: 1 <= k <= i ==> ltrsRow[k] == LitersSlot(fuel, k - 1)
    {
      if i < |fuel| {
        var fl := fuel[i];
        dateRow := dateRow + [DateCell(fl.fillDate)];
        mrRow := mrRow + [ReadingCell(fl.meterReading)];
        ltrsRow := ltrsRow + [LitersCell(fl.liters)];
      } else {
        dateRow := dateRow + [Empty];
        mrRow := mrRow + [Empty];
        ltrsRow := ltrsRow + [Empty];
      }
    }
  }

  /** A summary figure is printed only when it is positive. */
  function Printed(x: real): (c: Option<real>)
    ensures c.Some? <==> x > 0.0
    ensures c.Some? ==> c.value == x
  {
    if x > 0.0 then Some(x) else None
  }

  /** The figures row of the printed summary: the six figures, each only
      when positive, then the two ratios as they are (the dash when
      absent). */
  function SummaryCells(s: Summary): (cells: seq<Option<real>>)
    ensures |cells| == 8
    ensures cells[0] == Printed(s.thisMonthEnd as real) && cells[1] == Printed(s.lastMonthEnd as real)
    ensures cells[2] == Printed(s.totalKms as real)
    ensures cells[3] == Printed(s.officialKms) && cells[4] == Printed(s.personalKms)
    ensures cells[5] == Printed(s.totalLtrs)
    ensures cells[6] == s.avgKmsPerLtr && cells[7] == s.personalLtrs
  {
    [Printed(s.thisMonthEnd as real), Printed(s.lastMonthEnd as real), Printed(s.totalKms as real),
     Printed(s.officialKms), Printed(s.personalKms), Printed(s.totalLtrs), s.avgKmsPerLtr, s.personalLtrs]
  }

  /** A month without logs prints no figures: no readings, no distance,
      and no personal litres. */
  lemma EmptyMonthPrintsNothing(prev: Option<DailyLog>, fuel: seq<FuelLog>)
    ensures var s := MakeSummary([], prev, fuel, 0);
            var cells := SummaryCells(s);
            cells[0] == None && cells[2] == None && cells[3] == None && cells[4] == None && cells[7] == None
  {
  }
}
