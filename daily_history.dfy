/** The rep's history of earlier days: logs fetched ten at a time, newest
    first, with the visits of each page grouped by day log. The answers of
    the two queries of a page are inputs. */
module DailyHistory {
  import opened Domain

  const PageSize: nat := 10

  /** The shop columns the history query joins in. */
  datatype ShopRef = ShopRef(name: string, town: Option<string>)

  /** A visit as the history query returns it. */
  datatype HistoryVisit = HistoryVisit(
    id: string,
    dailyLogId: string,
    shopId: string,
    outcome: string,
    note: Option<string>,
    shop: Option<ShopRef>)

  /** The visits of one day log, in input order. */
  function Bucket(vs: seq<HistoryVisit>, logId: string): (b: seq<HistoryVisit>)
    ensures |b| <= |vs|
    ensures forall v :: v in b ==> v in vs && v.dailyLogId == logId
    decreases |vs|
  {
    if vs == [] then []
    else
      var rest := Bucket(vs[..|vs| - 1], logId);
      if vs[|vs| - 1].dailyLogId == logId then rest + [vs[|vs| - 1]] else rest
  }

  /** The day logs that have at least one visit. */
  function LogIdsOf(vs: seq<HistoryVisit>): set<string> {
    set i | 0 <= i < |vs| :: vs[i].dailyLogId
  }

  /** A bucket is empty exactly for a day log without visits. */
  lemma {:induction false} BucketEmpty(vs: seq<HistoryVisit>, logId: string)
    ensures Bucket(vs, logId) == [] <==> logId !in LogIdsOf(vs)
    decreases |vs|
  {
    if vs != [] {
      var init := vs[..|vs| - 1];
      BucketEmpty(init, logId);
      assert LogIdsOf(vs) == LogIdsOf(init) + {vs[|vs| - 1].dailyLogId} by {
        assert forall i :: 0 <= i < |init| ==> init[i] == vs[i];
      }
    }
  }

  /** Every visit is in the bucket of its own day log (and, by the
      function's contract, in no other). */
  lemma {:induction false} BucketHasAll(vs: seq<HistoryVisit>)
    ensures forall i :: 0 <= i < |vs| ==> vs[i] in Bucket(vs, vs[i].dailyLogId)
    decreases |vs|
  {
    if vs != [] {
      var init := vs[..|vs| - 1];
      BucketHasAll(init);
      forall i | 0 <= i < |vs|
        ensures vs[i] in Bucket(vs, vs[i].dailyLogId)
      {
        if i < |init| {
          assert init[i] == vs[i];
        }
      }
    }
  }

  /** Bucketing keeps the input order: the bucket of a concatenation is
      the bucket of the first part followed by that of the second. */
  lemma {:induction false} BucketAppend(a: seq<HistoryVisit>, b: seq<HistoryVisit>, logId: string)
    ensures Bucket(a + b, logId) == Bucket(a, logId) + Bucket(b, logId)
    decreases |b|
  {
    if b == [] {
      assert a + b == a;
    } else {
      var init := b[..|b| - 1];
      BucketAppend(a, init, logId);
      assert (a + b)[..|a + b| - 1] == a + init;
      assert (a + b)[|a + b| - 1] == b[|b| - 1];
    }
  }

  /** True of a visit map: each list holds only visits of its key. */
  predicate Grouped(m: map<string, seq<HistoryVisit>>) {
    forall k :: k in m ==> forall v :: v in m[k] ==> v.dailyLogId == k
  }

  /** The grouping loop of a page's visits. */
  method GroupVisits(vs: seq<HistoryVisit>) returns (m: map<string, seq<HistoryVisit>>)
    ensures m.Keys == LogIdsOf(vs)
    ensures forall k :: k in m ==> m[k] == Bucket(vs, k)
    ensures Grouped(m)
  {
    m := map[];
    var i := 0;
    while i < |vs|
      invariant 0 <= i <= |vs|
      invariant m.Keys == LogIdsOf(vs[..i])
      invariant forall k :: k in m ==> m[k] == Bucket(vs[..i], k)
    {
      var v := vs[i];
      assert vs[..i + 1][..i] == vs[..i];
      assert LogIdsOf(vs[..i + 1]) == LogIdsOf(vs[..i]) + {v.dailyLogId} by {
        assert forall j :: 0 <= j < i ==> vs[..i + 1][j] == vs[..i][j];
      }
      if v.dailyLogId !in m {
        BucketEmpty(vs[..i], v.dailyLogId);
        m := m[v.dailyLogId := []];
      }
      m := m[v.dailyLogId := m[v.dailyLogId] + [v]];
      i := i + 1;
    }
    assert vs[..i] == vs;
  }

  class History {
    var user: Option<string>
    /** The logs shown, newest first. */
    var logs: seq<DailyLog>
    var visitsByLog: map<string, seq<HistoryVisit>>
    var hasMore: bool
    var loading: bool

    predicate Valid()
      reads this
    {
      Grouped(visitsByLog)
    }

    constructor (user: Option<string>)
      ensures Valid()
      ensures this.user == user && logs == [] && visitsByLog == map[] && hasMore && loading
    {
      this.user := user;
      logs := [];
      visitsByLog := map[];
      hasMore := true;
      loading := true;
    }

    /** One page: the logs at `offset` onwards (`logsData`, null read as
        none) and the visits of those logs (`visitsData`, asked only when
        the page has logs). A short page ends the paging; the first page
        replaces what is shown, later ones are appended and their visit
        lists merged in, the new ones winning. Returns the requested
        range, both ends inclusive. */
    method FetchPage(offset: nat, logsData: Option<seq<DailyLog>>, visitsData: Option<seq<HistoryVisit>>)
        returns (rangeFrom: nat, rangeTo: nat)
      requires Valid()
      modifies this
      ensures Valid()
      ensures user == old(user)
      ensures rangeFrom == offset && rangeTo == offset + PageSize - 1
      ensures old(user).None? ==>
                logs == old(logs) && visitsByLog == old(visitsByLog) && hasMore == old(hasMore) && loading == old(loading)
      ensures old(user).Some? ==>
                var newLogs := if logsData.Some? then logsData.value else [];
                var vs := if newLogs != [] && visitsData.Some? then visitsData.value else [];
                (hasMore <==> old(hasMore) && |newLogs| >= PageSize)
                && (offset == 0 ==> logs == newLogs && visitsByLog.Keys == LogIdsOf(vs) && !loading)
                && (offset > 0 ==>
                      logs == old(logs) + newLogs && loading == old(loading)
                      && visitsByLog.Keys == old(visitsByLog).Keys + LogIdsOf(vs))
                && (forall k :: k in LogIdsOf(vs) ==> visitsByLog[k] == Bucket(vs, k))
                && (offset > 0 ==> forall k :: k in old(visitsByLog) && k !in LogIdsOf(vs) ==>
                                      visitsByLog[k] == old(visitsByLog)[k])
    {
      rangeFrom, rangeTo := offset, offset + PageSize - 1;
      if user.None? {
        return;
      }
      var newLogs := if logsData.Some? then logsData.value else [];
      if |newLogs| < PageSize {
        hasMore := false;
      }
      var newVisits: map<string, seq<HistoryVisit>> := map[];
      if |newLogs| > 0 {
        var vs := if visitsData.Some? then visitsData.value else [];
        newVisits := GroupVisits(vs);
      }
      if offset == 0 {
        logs := newLogs;
        visitsByLog := newVisits;
        loading := false;
      } else {
        logs := logs + newLogs;
        visitsByLog := visitsByLog + newVisits;
      }
    }

    /** "Load More" asks for the page after the logs already shown. */
    method LoadMore(logsData: Option<seq<DailyLog>>, visitsData: Option<seq<HistoryVisit>>)
        returns (rangeFrom: nat, rangeTo: nat)
      requires Valid()
      modifies this
      ensures Valid()
      ensures rangeFrom == |old(logs)| && rangeTo == |old(logs)| + PageSize - 1
      ensures user == old(user)
      ensures old(user).None? ==>
                logs == old(logs) && visitsByLog == old(visitsByLog) && hasMore == old(hasMore) && loading == old(loading)
      ensures old(user).Some? && |old(logs)| > 0 ==>
                var newLogs := if logsData.Some? then logsData.value else [];
                var vs := if newLogs != [] && visitsData.Some? then visitsData.value else [];
                logs == old(logs) + newLogs && loading == old(loading)
                && (hasMore <==> old(hasMore) && |newLogs| >= PageSize)
                && visitsByLog.Keys == old(visitsByLog).Keys + LogIdsOf(vs)
                && (forall k :: k in LogIdsOf(vs) ==> visitsByLog[k] == Bucket(vs, k))
                && (forall k :: k in old(visitsByLog) && k !in LogIdsOf(vs) ==> visitsByLog[k] == old(visitsByLog)[k])
      ensures old(user).Some? && old(logs) == [] ==>
                var newLogs := if logsData.Some? then logsData.value else [];
                var vs := if newLogs != [] && visitsData.Some? then visitsData.value else [];
                logs == newLogs && !loading && (hasMore <==> old(hasMore) && |newLogs| >= PageSize)
                && visitsByLog.Keys == LogIdsOf(vs) && (forall k :: k in LogIdsOf(vs) ==> visitsByLog[k] == Bucket(vs, k))
    {
      rangeFrom, rangeTo := FetchPage(|logs|, logsData, visitsData);
    }

    /** A change of the date filter clears the list, turns paging back on
        and fetches the first page. */
    method ResetFilter(logsData: Option<seq<DailyLog>>, visitsData: Option<seq<HistoryVisit>>)
      requires Valid()
      modifies this
      ensures Valid()
      ensures user == old(user)
      ensures old(user).None? ==> logs == [] && visitsByLog == map[] && hasMore
      ensures old(user).Some? ==>
                var newLogs := if logsData.Some? then logsData.value else [];
                var vs := if newLogs != [] && visitsData.Some? then visitsData.value else [];
                logs == newLogs && (hasMore <==> |newLogs| >= PageSize) && !loading
                && visitsByLog.Keys == LogIdsOf(vs) && (forall k :: k in LogIdsOf(vs) ==> visitsByLog[k] == Bucket(vs, k))
    {
      logs := [];
      visitsByLog := map[];
      hasMore := true;
      var rangeFrom, rangeTo := FetchPage(0, logsData, visitsData);
    }
  }
}
