/** Which cards the rep's page shows for the state of the working day. */
module RepDashboard {
  import opened Domain
  import RepWorkflow
  import Calendar

  datatype View = View(
    spinnerOnly: bool,
    startCard: bool,
    shopList: bool,
    endCard: bool,
    visitLog: bool,
    fuelCard: bool,
    fuelLocked: bool,
    completePanel: bool,
    history: bool)

  predicate DayStarted(todayLog: Option<DailyLog>) {
    todayLog.Some?
  }

  predicate DayCompleted(todayLog: Option<DailyLog>) {
    todayLog.Some? && todayLog.value.status == Completed
  }

  function Render(loading: bool, todayLog: Option<DailyLog>, visitCount: nat): (v: View)
    ensures loading ==> v == View(true, false, false, false, false, false, false, false, false)
    ensures !loading ==> !v.spinnerOnly && v.history
    ensures !loading ==> (v.startCard <==> todayLog.None?)
    ensures !loading ==> (v.shopList <==> DayStarted(todayLog) && !DayCompleted(todayLog))
                         && (v.endCard <==> v.shopList)
    ensures !loading ==> (v.fuelCard <==> DayStarted(todayLog)) && (v.fuelLocked <==> DayCompleted(todayLog))
    ensures !loading ==> (v.visitLog <==> visitCount > 0) && (v.completePanel <==> DayCompleted(todayLog))
  {
    if loading then View(true, false, false, false, false, false, false, false, false)
    else
      var started := todayLog.Some?;
      var completed := todayLog.Some? && todayLog.value.status == Completed;
      View(false, !started, started && !completed, started && !completed, visitCount > 0,
           started, completed, completed, true)
  }

  /** Once loaded, the page is in exactly one phase: before the start (the
      start card alone among the day cards), during the day (shops, end of
      day and an open fuel card) or after the end (a locked fuel card and
      the completion panel). */
  lemma OnePhase(todayLog: Option<DailyLog>, visitCount: nat)
    ensures var v := Render(false, todayLog, visitCount);
            (v.startCard && !v.shopList && !v.endCard && !v.fuelCard && !v.completePanel)
            || (!v.startCard && v.shopList && v.endCard && v.fuelCard && !v.fuelLocked && !v.completePanel)
            || (!v.startCard && !v.shopList && !v.endCard && v.fuelCard && v.fuelLocked && v.completePanel)
  {
  }

  /** Starting the day moves the page from the start card to the day's
      cards, and ending it moves the page to the completed phase. */
  lemma StartThenEnd(id: string, today: Calendar.Date, start: nat, end: nat, personal: real, visitCount: nat)
    ensures var started := DailyLog(id, today, Some(start), None, None, None, Started);
            var ended := started.(endMeter := Some(end), personalKm := Some(personal),
                                  officialKm := Some(RepWorkflow.OfficialKm(end, Some(start), personal)),
                                  status := Completed);
            var v0 := Render(false, None, visitCount);
            var v1 := Render(false, Some(started), visitCount);
            var v2 := Render(false, Some(ended), visitCount);
            v0.startCard && !v1.startCard && v1.shopList && v1.endCard && !v1.fuelLocked
            && !v2.shopList && !v2.endCard && v2.fuelLocked && v2.completePanel
  {
  }
}
