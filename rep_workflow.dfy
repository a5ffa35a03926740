/** The rep's working day as the client holds it: today's log, the visits
    of the day, the month's fuel entries, and the operations that change
    them after a backend write. Each backend write is an input: its success
    (with the id of a created row) or its failure. */
module RepWorkflow {
  import opened Calendar
  import opened Domain

  /** The outcome of an insert that returns the new row: its id, or an
      error. */
  datatype InsertResult = Created(id: string) | InsertFailed(message: string)

  // ---------------------------------------------------------------------
  // Distances

  /** The official distance stored when a day ends: the day's distance
      less the personal part, never below zero; a missing start reading
      counts as 0. */
  function OfficialKm(endMeter: nat, startMeter: Option<nat>, personalKm: real): (k: real)
    ensures k >= 0.0
    ensures k >= (endMeter - (if startMeter.Some? then startMeter.value else 0)) as real - personalKm
    ensures k == 0.0 || k == (endMeter - (if startMeter.Some? then startMeter.value else 0)) as real - personalKm
  {
    var official := (endMeter - (if startMeter.Some? then startMeter.value else 0)) as real - personalKm;
    if official > 0.0 then official else 0.0
  }

  /** When the personal part is within the day's distance, the official
      and personal parts add up to the day's distance. */
  lemma OfficialPlusPersonal(endMeter: nat, startMeter: nat, personalKm: real)
    requires 0.0 <= personalKm <= (endMeter - startMeter) as real
    ensures OfficialKm(endMeter, Some(startMeter), personalKm) + personalKm == (endMeter - startMeter) as real
  {
  }

  // ---------------------------------------------------------------------
  // Fuel entries in date order

  predicate SortedByDate(s: seq<FuelLog>) {
    forall i, j :: 0 <= i < j < |s| ==> NotAfter(s[i].fillDate, s[j].fillDate)
  }

  /** Where a stable sort by date puts a new entry appended to the list:
      after every entry not later than it, scanning back from the end. */
  function InsertPos(s: seq<FuelLog>, x: FuelLog): (k: nat)
    ensures k <= |s|
    ensures k > 0 ==> NotAfter(s[k - 1].fillDate, x.fillDate)
    ensures forall i :: k <= i < |s| ==> Before(x.fillDate, s[i].fillDate)
    decreases |s|
  {
    if s == [] then 0
    else if NotAfter(s[|s| - 1].fillDate, x.fillDate) then |s|
    else
      Total(s[|s| - 1].fillDate, x.fillDate);
      InsertPos(s[..|s| - 1], x)
  }

  /** `[...prev, x].sort(by fill date)` on a list already in date order: the
      entries not later than `x`, then `x`, then the later ones. */
  function InsertByDate(s: seq<FuelLog>, x: FuelLog): (r: seq<FuelLog>)
    ensures |r| == |s| + 1
    ensures multiset(r) == multiset(s) + multiset{x}
  {
    var k := InsertPos(s, x);
    assert s == s[..k] + s[k..];
    s[..k] + [x] + s[k..]
  }

  /** The list stays in date order. */
  lemma InsertKeepsOrder(s: seq<FuelLog>, x: FuelLog)
    requires SortedByDate(s)
    ensures SortedByDate(InsertByDate(s, x))
  {
    var k := InsertPos(s, x);
    var r := InsertByDate(s, x);
    forall i | 0 <= i < k
      ensures NotAfter(s[i].fillDate, x.fillDate)
    {
      if i < k - 1 {
        NotAfterTransitive(s[i].fillDate, s[k - 1].fillDate, x.fillDate);
      }
    }
    forall i, j | 0 <= i < j < |r|
      ensures NotAfter(r[i].fillDate, r[j].fillDate)
    {
      if i < k && j == k {
      } else if i < k && j > k {
        assert r[j] == s[j - 1];
        NotAfterTransitive(s[i].fillDate, x.fillDate, s[j - 1].fillDate);
      } else if i == k {
        assert r[j] == s[j - 1];
      } else if i > k {
        assert r[i] == s[i - 1] && r[j] == s[j - 1];
      }
    }
  }

  /** The parts of `p + [x] + q`. */
  lemma SpliceParts<T>(p: seq<T>, x: T, q: seq<T>)
    ensures var r := p + [x] + q;
            |r| == |p| + |q| + 1 && r[|p|] == x && r[..|p|] == p && r[|p| + 1..] == q
            && forall i :: |p| < i < |r| ==> r[i] == q[i - |p| - 1]
  {
  }

  /** The sort is stable: taking the new entry out gives the old list
      back, so entries of the same date keep their order and the new one
      comes after them. */
  lemma InsertIsStable(s: seq<FuelLog>, x: FuelLog)
    ensures var k := InsertPos(s, x);
            var r := InsertByDate(s, x);
            r[k] == x && r[..k] + r[k + 1..] == s
            && (forall i :: k < i < |r| ==> Before(x.fillDate, r[i].fillDate))
  {
    var k := InsertPos(s, x);
    var p, q := s[..k], s[k..];
    SpliceParts(p, x, q);
    assert p + q == s;
    forall i | k < i < |s| + 1
      ensures Before(x.fillDate, (p + [x] + q)[i].fillDate)
    {
      assert q[i - k - 1] == s[i - 1];
    }
  }


  /** `prev.filter(f => f.id !== id)` */
  function RemoveById(s: seq<FuelLog>, id: string): (r: seq<FuelLog>)
    ensures |r| <= |s|
    ensures forall i :: 0 <= i < |r| ==> r[i].id != id && r[i] in s
    ensures forall i :: 0 <= i < |s| && s[i].id != id ==> s[i] in r
    ensures (forall i :: 0 <= i < |s| ==> s[i].id != id) ==> r == s
    decreases |s|
  {
    if s == [] then []
    else
      var tail := s[1..];
      var rest := RemoveById(tail, id);
      assert forall i :: 1 <= i < |s| ==> s[i] == tail[i - 1];
      assert forall e :: e in tail ==> e in s;
      if s[0].id == id then rest else [s[0]] + rest
  }

  /** Deleting keeps the other entries in their order and with their
      repeats: deleting from a concatenation deletes from each part. */
  lemma {:induction false} RemoveByIdAppend(a: seq<FuelLog>, b: seq<FuelLog>, id: string)
    ensures RemoveById(a + b, id) == RemoveById(a, id) + RemoveById(b, id)
    decreases |a|
  {
    if a == [] {
      assert a + b == b;
    } else {
      assert (a + b)[0] == a[0];
      assert (a + b)[1..] == a[1..] + b;
      RemoveByIdAppend(a[1..], b, id);
    }
  }

  /** An entry no later than any entry of a sorted list can go in front of it. */
  lemma ConsSorted(x: FuelLog, rest: seq<FuelLog>)
    requires SortedByDate(rest)
    requires forall k :: 0 <= k < |rest| ==> NotAfter(x.fillDate, rest[k].fillDate)
    ensures SortedByDate([x] + rest)
  {
    var r := [x] + rest;
    forall i, j | 0 <= i < j < |r|
      ensures NotAfter(r[i].fillDate, r[j].fillDate)
    {
      assert r[j] == rest[j - 1];
      if i > 0 {
        assert r[i] == rest[i - 1];
      }
    }
  }

  /** Removing entries keeps the list in date order. */
  lemma {:induction false} RemoveKeepsOrder(s: seq<FuelLog>, id: string)
    requires SortedByDate(s)
    ensures SortedByDate(RemoveById(s, id))
    decreases |s|
  {
    if s != [] {
      var tail := s[1..];
      var rest := RemoveById(tail, id);
      assert SortedByDate(tail) by {
        assert forall i :: 0 <= i < |tail| ==> tail[i] == s[i + 1];
      }
      RemoveKeepsOrder(tail, id);
      if s[0].id != id {
        forall k | 0 <= k < |rest|
          ensures NotAfter(s[0].fillDate, rest[k].fillDate)
        {
          assert rest[k] in tail;
          var m :| 0 <= m < |tail| && tail[m] == rest[k];
          assert s[m + 1] == rest[k];
        }
        ConsSorted(s[0], rest);
      }
    }
  }

  // ---------------------------------------------------------------------
  // Visits

  /** `prev.map(v => v.id === visitId ? { ...v, outcome, note } : v)`:
      the local copy takes the note text as entered, even when empty. */
  function UpdateById(vs: seq<Visit>, visitId: string, outcome: string, note: string): (r: seq<Visit>)
    ensures |r| == |vs|
    ensures forall i :: 0 <= i < |vs| && vs[i].id == visitId ==> r[i] == vs[i].(outcome := outcome, note := Some(note))
    ensures forall i :: 0 <= i < |vs| && vs[i].id != visitId ==> r[i] == vs[i]
  {
    seq(|vs|, i requires 0 <= i < |vs| => if vs[i].id == visitId then vs[i].(outcome := outcome, note := Some(note)) else vs[i])
  }

  /** Updating a visit nobody carries the id of changes nothing. */
  lemma UpdateUnknownId(vs: seq<Visit>, visitId: string, outcome: string, note: string)
    requires forall i :: 0 <= i < |vs| ==> vs[i].id != visitId
    ensures UpdateById(vs, visitId, outcome, note) == vs
  {
  }

  // ---------------------------------------------------------------------
  // The hook

  /** The month window of the fuel query. */
  function FuelWindow(today: Date): (w: Window)
    requires ValidDate(today)
    ensures forall d :: ValidDate(d) ==> (InWindow(d, w) <==> d.year == today.year && d.month == today.month)
  {
    forall d | ValidDate(d)
      ensures InWindow(d, MonthWindow(today.year, today.month)) <==> d.year == today.year && d.month == today.month
    {
      MonthWindowExact(d, today.year, today.month);
    }
    MonthWindow(today.year, today.month)
  }

  class Workflow {
    /** The signed-in user's id; `None` when signed out. */
    var user: Option<string>
    var today: Date
    var todayLog: Option<DailyLog>
    var shops: seq<Shop>
    var visits: seq<Visit>
    var fuelLogs: seq<FuelLog>
    var loading: bool

    /** The fuel list is in date order, as it is fetched. */
    predicate Valid()
      reads this
    {
      SortedByDate(fuelLogs) && ValidDate(today)
    }

    constructor (user: Option<string>, today: Date)
      requires ValidDate(today)
      ensures Valid()
      ensures this.user == user && this.today == today
      ensures todayLog == None && shops == [] && visits == [] && fuelLogs == [] && loading
    {
      this.user := user;
      this.today := today;
      todayLog := None;
      shops := [];
      visits := [];
      fuelLogs := [];
      loading := true;
    }

    /** Loads the day: today's log and its visits (newest first) or none,
        the assigned shops, and the month's fuel entries in date order.
        Returns the window of fill dates the fuel query asks for. */
    method FetchTodayData(logRes: Option<DailyLog>, dayVisits: seq<Visit>, assignedShops: seq<Shop>, fuel: seq<FuelLog>)
        returns (fuelWindow: Option<Window>)
      requires Valid() && SortedByDate(fuel)
      modifies this
      ensures Valid()
      ensures old(user).None? <==> fuelWindow.None?
      ensures fuelWindow.Some? ==> fuelWindow.value == FuelWindow(today)
      ensures user == old(user) && today == old(today)
      ensures old(user).None? ==> todayLog == old(todayLog) && visits == old(visits) && shops == old(shops)
                                  && fuelLogs == old(fuelLogs) && loading == old(loading)
      ensures old(user).Some? ==> todayLog == logRes && visits == (if logRes.Some? then dayVisits else [])
                                  && shops == assignedShops && fuelLogs == fuel && !loading
    {
      if user.None? {
        return None;
      }
      fuelWindow := Some(FuelWindow(today));
      if logRes.Some? {
        todayLog := logRes;
        visits := dayVisits;
      } else {
        todayLog := None;
        visits := [];
      }
      shops := assignedShops;
      fuelLogs := fuel;
      loading := false;
    }

    /** Starts the day. A vehicle number, when given, is saved first, and
        a failure there stops before the log is created. */
    method StartDay(startMeter: nat, vehicleNumber: string, profileUpdate: BackendResult, insert: InsertResult)
      requires Valid()
      modifies this
      ensures Valid()
      ensures user == old(user) && today == old(today) && visits == old(visits) && fuelLogs == old(fuelLogs)
      ensures shops == old(shops) && loading == old(loading)
      ensures (old(user).None? || (vehicleNumber != "" && profileUpdate.Failed?) || insert.InsertFailed?) ==>
                todayLog == old(todayLog)
      ensures (old(user).Some? && !(vehicleNumber != "" && profileUpdate.Failed?) && insert.Created?) ==>
                todayLog == Some(DailyLog(insert.id, old(today), Some(startMeter), None, None, None, Started))
    {
      if user.None? {
        return;
      }
      if vehicleNumber != "" {
        if profileUpdate.Failed? {
          return;
        }
      }
      if insert.InsertFailed? {
        return;
      }
      todayLog := Some(DailyLog(insert.id, today, Some(startMeter), None, None, None, Started));
    }

    /** Ends the day: stores the end reading, the personal distance and the
        official distance, and marks the day completed. */
    method EndDay(endMeter: nat, personalKm: real, update: BackendResult)
      requires Valid()
      modifies this
      ensures Valid()
      ensures user == old(user) && today == old(today) && visits == old(visits) && fuelLogs == old(fuelLogs)
      ensures shops == old(shops) && loading == old(loading)
      ensures old(user).None? || old(todayLog).None? || update.Failed? ==> todayLog == old(todayLog)
      ensures old(user).Some? && old(todayLog).Some? && update.Ok? ==>
                todayLog == Some(old(todayLog).value.(endMeter := Some(endMeter), personalKm := Some(personalKm),
                                   officialKm := Some(OfficialKm(endMeter, old(todayLog).value.startMeter, personalKm)),
                                   status := Completed))
    {
      if user.None? || todayLog.None? {
        return;
      }
      var log := todayLog.value;
      var official := OfficialKm(endMeter, log.startMeter, personalKm);
      if update.Failed? {
        return;
      }
      todayLog := Some(log.(endMeter := Some(endMeter), personalKm := Some(personalKm),
                            officialKm := Some(official), status := Completed));
    }

    /** Records a visit to a shop and puts it first in the list; an empty
        note is stored as null. */
    method RecordVisit(shopId: string, outcome: string, note: string, gpsLat: Option<real>, gpsLng: Option<real>,
                       insert: InsertResult)
      requires Valid()
      modifies this
      ensures Valid()
      ensures user == old(user) && today == old(today) && todayLog == old(todayLog) && fuelLogs == old(fuelLogs)
      ensures shops == old(shops) && loading == old(loading)
      ensures old(user).None? || old(todayLog).None? || insert.InsertFailed? ==> visits == old(visits)
      ensures old(user).Some? && old(todayLog).Some? && insert.Created? ==>
                visits == [Visit(insert.id, old(todayLog).value.id, shopId, outcome, NonEmpty(note), gpsLat, gpsLng)]
                          + old(visits)
    {
      if user.None? || todayLog.None? {
        return;
      }
      if insert.InsertFailed? {
        return;
      }
      var v := Visit(insert.id, todayLog.value.id, shopId, outcome, NonEmpty(note), gpsLat, gpsLng);
      visits := [v] + visits;
    }

    /** Saves a fuel entry and puts it into the list in date order. */
    method AddFuelLog(fillDate: Date, meterReading: nat, liters: real, insert: InsertResult)
      requires Valid()
      modifies this
      ensures Valid()
      ensures user == old(user) && today == old(today) && todayLog == old(todayLog) && visits == old(visits)
      ensures shops == old(shops) && loading == old(loading)
      ensures old(user).None? || insert.InsertFailed? ==> fuelLogs == old(fuelLogs)
      ensures old(user).Some? && insert.Created? ==>
                fuelLogs == InsertByDate(old(fuelLogs), FuelLog(insert.id, fillDate, meterReading, liters))
    {
      if user.None? {
        return;
      }
      if insert.InsertFailed? {
        return;
      }
      var entry := FuelLog(insert.id, fillDate, meterReading, liters);
      InsertKeepsOrder(fuelLogs, entry);
      fuelLogs := InsertByDate(fuelLogs, entry);
    }

    /** Deletes a fuel entry; there is no signed-in check here. */
    method DeleteFuelLog(id: string, result: BackendResult)
      requires Valid()
      modifies this
      ensures Valid()
      ensures user == old(user) && today == old(today) && todayLog == old(todayLog) && visits == old(visits)
      ensures shops == old(shops) && loading == old(loading)
      ensures result.Failed? ==> fuelLogs == old(fuelLogs)
      ensures result.Ok? ==> fuelLogs == RemoveById(old(fuelLogs), id)
    {
      if result.Failed? {
        return;
      }
      RemoveKeepsOrder(fuelLogs, id);
      fuelLogs := RemoveById(fuelLogs, id);
    }

    /** Changes the outcome and note of one visit. */
    method UpdateVisit(visitId: string, outcome: string, note: string, result: BackendResult)
      requires Valid()
      modifies this
      ensures Valid()
      ensures user == old(user) && today == old(today) && todayLog == old(todayLog) && fuelLogs == old(fuelLogs)
      ensures shops == old(shops) && loading == old(loading)
      ensures old(user).None? || result.Failed? ==> visits == old(visits)
      ensures old(user).Some? && result.Ok? ==> visits == UpdateById(old(visits), visitId, outcome, note)
    {
      if user.None? {
        return;
      }
      if result.Failed? {
        return;
      }
      visits := UpdateById(visits, visitId, outcome, note);
    }
  }
}
