/** The admin's shop screen: the rep filter, the selection of shops, the
    chunked bulk delete and unassign, and the reconciliation of an imported
    spreadsheet against the shops and reps already known. */
module ShopManagement {
  import opened Text
  import opened Domain
  import opened OrderedSet
  import Chunks

  // ---------------------------------------------------------------------
  // Reps and rep-name resolution

  /** A rep's profile as the screen loads it. */
  datatype RepProfile = RepProfile(userId: string, fullName: string)

  /** An optional text value that JavaScript treats as true: present and
      not empty. */
  predicate Truthy(o: Option<string>) {
    o.Some? && o.value != ""
  }

  /** The key a rep is known by in the name map: the lower-cased, trimmed
      full name. */
  function RepKey(p: RepProfile): string {
    Trim(Lower(p.fullName))
  }

  /** An entry of the rep name map: a key and a rep id. */
  datatype Entry = Entry(key: string, id: string)

  /** The entries the name map is built from, one per rep, in list order. */
  function Entries(reps: seq<RepProfile>): (es: seq<Entry>)
    ensures |es| == |reps|
    ensures forall i :: 0 <= i < |reps| ==> es[i] == Entry(RepKey(reps[i]), reps[i].userId)
  {
    seq(|reps|, i requires 0 <= i < |reps| => Entry(RepKey(reps[i]), reps[i].userId))
  }

  /** `repNameMap.get(key)`: the map is built from the entries in order, so
      a later entry with the same key overwrites an earlier one. */
  function LookupLast(es: seq<Entry>, key: string): (r: Option<string>)
    ensures r.None? <==> forall i :: 0 <= i < |es| ==> es[i].key != key
    ensures r.Some? ==> exists i :: 0 <= i < |es| && es[i] == Entry(key, r.value)
  {
    if es == [] then None
    else if es[|es| - 1].key == key then Some(es[|es| - 1].id)
    else
      var init := es[..|es| - 1];
      assert forall i :: 0 <= i < |init| ==> init[i] == es[i];
      LookupLast(init, key)
  }

  /** The id under a key is that of the last entry with the key. */
  lemma {:induction false} LookupLastIsLast(es: seq<Entry>, key: string, i: nat)
    requires i < |es| && es[i].key == key
    requires forall j :: i < j < |es| ==> es[j].key != key
    ensures LookupLast(es, key) == Some(es[i].id)
  {
    if i < |es| - 1 {
      var init := es[..|es| - 1];
      assert init[i] == es[i];
      LookupLastIsLast(init, key, i);
    }
  }

  /** The fuzzy test: a database name longer than three characters that
      contains the given name or is contained in it. */
  predicate FuzzyMatch(dbName: string, repName: string) {
    |dbName| > 3 && (Contains(dbName, repName) || Contains(repName, dbName))
  }

  /** Position of the first entry, in list order, whose key passes the
      fuzzy test; `|es|` when there is none. The map's entries are visited
      in the order their keys were first inserted, which is this order. */
  function FirstFuzzy(es: seq<Entry>, repName: string): (k: nat)
    ensures k <= |es|
    ensures k < |es| ==> FuzzyMatch(es[k].key, repName)
    ensures forall i :: 0 <= i < k ==> !FuzzyMatch(es[i].key, repName)
  {
    if es == [] then 0
    else if FuzzyMatch(es[0].key, repName) then 0
    else 1 + FirstFuzzy(es[1..], repName)
  }

  /** The rep id a spreadsheet row's (lower-cased, trimmed) rep name
      resolves to: an exact key match first; failing that, and only for a
      non-empty name, the first fuzzy match, taking the id the map holds for
      that key. */
  function ResolveRep(es: seq<Entry>, repName: string): (r: Option<string>)
    ensures Truthy(LookupLast(es, repName)) ==> r == LookupLast(es, repName)
    ensures !Truthy(LookupLast(es, repName)) && repName == "" ==> r == None
    ensures !Truthy(LookupLast(es, repName)) && repName != "" ==>
              (r.Some? <==> exists i :: 0 <= i < |es| && FuzzyMatch(es[i].key, repName))
    ensures r.Some? ==> exists i :: 0 <= i < |es| && es[i].id == r.value
  {
    var exact := LookupLast(es, repName);
    if Truthy(exact) then exact
    else if repName == "" then None
    else
      var k := FirstFuzzy(es, repName);
      if k < |es| then LookupLast(es, es[k].key) else None
  }

  /** The fuzzy match yields the id of the first entry that passes the test,
      unless a later entry has the same key. */
  lemma FuzzyFirstInListOrder(es: seq<Entry>, repName: string, k: nat)
    requires !Truthy(LookupLast(es, repName)) && repName != ""
    requires k < |es| && FuzzyMatch(es[k].key, repName)
    requires forall i :: 0 <= i < k ==> !FuzzyMatch(es[i].key, repName)
    requires forall j :: k < j < |es| ==> es[j].key != es[k].key
    ensures ResolveRep(es, repName) == Some(es[k].id)
  {
    var first := FirstFuzzy(es, repName);
    assert first == k;
    LookupLastIsLast(es, es[k].key, k);
  }

  /** An empty rep name resolves to nothing, as long as no rep's own name
      is blank: such a rep has the empty key and matches it exactly. */
  lemma ResolveEmptyName(es: seq<Entry>)
    requires forall i :: 0 <= i < |es| ==> es[i].key != ""
    ensures ResolveRep(es, "") == None
  {
  }

  /** A blank-named rep is what an empty rep name resolves to. */
  lemma ResolveEmptyNameToBlankRep(id: string)
    requires id != ""
    ensures ResolveRep(Entries([RepProfile(id, " ")]), "") == Some(id)
  {
    assert IsSpace(' ');
    assert Trim(Lower(" ")) == "";
  }

  // ---------------------------------------------------------------------
  // Spreadsheet rows

  /** A spreadsheet row: column heading to cell text; a missing heading is
      an absent key. */
  type Row = map<string, string>

  /** The position of the first of `keys` whose cell is non-empty, or
      `|keys|` when there is none. */
  function FirstKeyAt(row: Row, keys: seq<string>): (i: nat)
    ensures i <= |keys|
    ensures i < |keys| ==> keys[i] in row && row[keys[i]] != ""
    ensures forall j :: 0 <= j < i ==> keys[j] !in row || row[keys[j]] == ""
  {
    if keys == [] then 0
    else if keys[0] in row && row[keys[0]] != "" then 0
    else 1 + FirstKeyAt(row, keys[1..])
  }

  /** The first of `keys` whose cell is non-empty, as text; "" when none is. */
  function FirstPresent(row: Row, keys: seq<string>): (v: string)
    ensures v != "" ==> exists k :: k in keys && k in row && row[k] == v
    ensures var i := FirstKeyAt(row, keys);
            (v != "" <==> i < |keys|) && (i < |keys| ==> v == row[keys[i]])
    ensures v == "" <==> forall k :: k in keys && k in row ==> row[k] == ""
  {
    if keys == [] then ""
    else if keys[0] in row && row[keys[0]] != "" then row[keys[0]]
    else FirstPresent(row, keys[1..])
  }

  const BpKeys: seq<string> := ["BP Code", "bp_code", "BP", "Code"]
  const RepKeys: seq<string> := ["Assigned Rep Name", "Assigned Rep", "assigned_rep_name", "Rep"]
  const NameKeys: seq<string> := ["Shop Name", "shop_name", "name", "Shop"]
  const AddressKeys: seq<string> := ["Address", "address"]
  const PhoneKeys: seq<string> := ["Phone Number", "phone_number", "phone", "Phone"]

  function RowBp(row: Row): string { Trim(FirstPresent(row, BpKeys)) }
  function RowRepRaw(row: Row): string { Trim(FirstPresent(row, RepKeys)) }
  function RowName(row: Row): string { Trim(FirstPresent(row, NameKeys)) }
  function RowAddress(row: Row): string { Trim(FirstPresent(row, AddressKeys)) }
  function RowPhone(row: Row): string { Trim(FirstPresent(row, PhoneKeys)) }

  /** What the loop reads off one row: the trimmed BP code and its
      lower-cased form, the raw rep name and the rep it resolves to, and the
      trimmed shop fields. */
  datatype RowView = RowView(
    bp: string,
    bpLower: string,
    repRaw: string,
    repId: Option<string>,
    name: string,
    address: string,
    phone: string)

  function View(row: Row, es: seq<Entry>): RowView {
    var bp := RowBp(row);
    var raw := RowRepRaw(row);
    RowView(bp, Lower(bp), raw, ResolveRep(es, Lower(raw)), RowName(row), RowAddress(row), RowPhone(row))
  }

  /** The row names a rep that resolved to nothing usable. */
  predicate Unmatched(v: RowView) {
    v.repRaw != "" && !Truthy(v.repId)
  }

  // ---------------------------------------------------------------------
  // Existing shops by BP code

  predicate HasBp(s: Shop) {
    Truthy(s.bpCode)
  }

  function BpKey(s: Shop): string
    requires HasBp(s)
  {
    Trim(Lower(s.bpCode.value))
  }

  /** The shop at `i` has a BP code and no later shop has the same key. */
  predicate LastWithKey(shops: seq<Shop>, i: nat)
    requires i < |shops|
  {
    HasBp(shops[i]) && forall j :: i < j < |shops| && HasBp(shops[j]) ==> BpKey(shops[j]) != BpKey(shops[i])
  }

  /** `shopBpMap`: every shop with a BP code under its lower-cased, trimmed
      code; a later shop with the same key overwrites an earlier one. */
  function BpMap(shops: seq<Shop>): (m: map<string, Shop>)
    ensures forall key :: key in m ==> m[key] in shops && HasBp(m[key]) && BpKey(m[key]) == key
    ensures forall s :: s in shops && HasBp(s) ==> BpKey(s) in m
  {
    if shops == [] then map[]
    else
      var m := BpMap(shops[..|shops| - 1]);
      var s := shops[|shops| - 1];
      assert shops == shops[..|shops| - 1] + [s];
      if HasBp(s) then m[BpKey(s) := s] else m
  }

  /** A later shop overwrites an earlier one: under each key sits the last
      shop with that key. */
  lemma {:induction false} BpMapLastWins(shops: seq<Shop>, i: nat)
    requires i < |shops| && LastWithKey(shops, i)
    ensures BpMap(shops)[BpKey(shops[i])] == shops[i]
    decreases |shops|
  {
    var init := shops[..|shops| - 1];
    var s := shops[|shops| - 1];
    if i < |shops| - 1 {
      assert init[i] == shops[i];
      assert LastWithKey(init, i) by {
        forall j | i < j < |init| && HasBp(init[j]) ensures BpKey(init[j]) != BpKey(init[i]) {
          assert init[j] == shops[j];
        }
      }
      BpMapLastWins(init, i);
      assert !HasBp(s) || BpKey(s) != BpKey(shops[i]);
    }
  }

  /** The loop filling `shopBpMap`. */
  method BuildBpMap(shops: seq<Shop>) returns (m: map<string, Shop>)
    ensures m == BpMap(shops)
  {
    m := map[];
    var i := 0;
    while i < |shops|
      invariant 0 <= i <= |shops|
      invariant m == BpMap(shops[..i])
    {
      assert shops[..i + 1][..i] == shops[..i];
      if HasBp(shops[i]) {
        m := m[BpKey(shops[i]) := shops[i]];
      }
      i := i + 1;
    }
    assert shops[..i] == shops;
  }

  // ---------------------------------------------------------------------
  // Row classification

  /** A shop to be inserted. */
  datatype NewShop = NewShop(
    name: string,
    address: Option<string>,
    phone: Option<string>,
    assignedRepId: Option<string>,
    bpCode: Option<string>)

  /** What a row does: update the shop with its BP code, nothing because
      that shop is already queued, insert a new shop, or nothing at all. */
  datatype RowAction = UpdateShop(shop: Shop) | AlreadyQueued | InsertShop(newShop: NewShop) | SkipRow

  /** The row's BP code names a known shop. */
  predicate CodeMatches(v: RowView, bpMap: map<string, Shop>) {
    v.bp != "" && v.bpLower in bpMap
  }

  /** The shop kept as it is, except that a resolved rep replaces its rep;
      with no resolved rep the shop keeps the one it has. */
  function Reassigned(existing: Shop, repId: Option<string>): (s: Shop)
    ensures s.id == existing.id && s.name == existing.name && s.bpCode == existing.bpCode
    ensures s == existing.(assignedRepId := s.assignedRepId)
    ensures repId.Some? ==> s.assignedRepId == repId
    ensures repId.None? ==> s == existing
  {
    existing.(assignedRepId := if repId.Some? then repId else existing.assignedRepId)
  }

  function Classify(v: RowView, bpMap: map<string, Shop>, processed: set<string>): (a: RowAction)
    ensures a.UpdateShop? <==> CodeMatches(v, bpMap) && bpMap[v.bpLower].id !in processed
    ensures a.AlreadyQueued? <==> CodeMatches(v, bpMap) && bpMap[v.bpLower].id in processed
    ensures a.InsertShop? <==> !CodeMatches(v, bpMap) && v.name != ""
    ensures a.UpdateShop? ==> a.shop == Reassigned(bpMap[v.bpLower], v.repId)
    ensures a.InsertShop? ==> a.newShop.name != "" && a.newShop.name == v.name
                              && a.newShop.assignedRepId == v.repId
                              && a.newShop.bpCode == NonEmpty(v.bp)
  {
    if CodeMatches(v, bpMap) then
      var existing := bpMap[v.bpLower];
      if existing.id in processed then AlreadyQueued
      else UpdateShop(Reassigned(existing, v.repId))
    else if v.name != "" then
      InsertShop(NewShop(v.name, NonEmpty(v.address), NonEmpty(v.phone),
                         v.repId, NonEmpty(v.bp)))
    else SkipRow
  }

  // ---------------------------------------------------------------------
  // Reconciliation

  /** The accumulators of the row loop. */
  datatype ImportState = ImportState(
    toUpsert: seq<Shop>,
    toInsert: seq<NewShop>,
    processed: set<string>,
    unmatched: seq<string>,
    updatedCount: nat,
    insertedCount: nat)

  const Initial := ImportState([], [], {}, [], 0, 0)

  /** One row's effect on the accumulators. An unmatched rep name is noted
      before the row is classified, so even a row that is then dropped as
      a duplicate records it. */
  function Step(st: ImportState, v: RowView, bpMap: map<string, Shop>): ImportState {
    var unmatched := if Unmatched(v) then Add(st.unmatched, v.repRaw) else st.unmatched;
    match Classify(v, bpMap, st.processed)
    case UpdateShop(s) =>
      st.(toUpsert := st.toUpsert + [s], processed := st.processed + {s.id},
          unmatched := unmatched, updatedCount := st.updatedCount + 1)
    case InsertShop(n) =>
      st.(toInsert := st.toInsert + [n], unmatched := unmatched, insertedCount := st.insertedCount + 1)
    case _ => st.(unmatched := unmatched)
  }

  /** The accumulators after the rows, in order. */
  function Reconcile(views: seq<RowView>, bpMap: map<string, Shop>): ImportState
    decreases |views|
  {
    if views == [] then Initial
    else Step(Reconcile(views[..|views| - 1], bpMap), views[|views| - 1], bpMap)
  }

  /** The views of the rows, in order. */
  function Views(rows: seq<Row>, es: seq<Entry>): (vs: seq<RowView>)
    ensures |vs| == |rows|
    ensures forall i :: 0 <= i < |rows| ==> vs[i] == View(rows[i], es)
  {
    seq(|rows|, i requires 0 <= i < |rows| => View(rows[i], es))
  }

  /** The ids of the queued shops. */
  function Ids(shops: seq<Shop>): (ids: seq<string>)
    ensures |ids| == |shops|
    ensures forall i :: 0 <= i < |shops| ==> ids[i] == shops[i].id
  {
    seq(|shops|, i requires 0 <= i < |shops| => shops[i].id)
  }

  /** Each shop is a known shop changed at most in its rep. */
  predicate FromKnownShops(shops: seq<Shop>, bpMap: map<string, Shop>) {
    forall i :: 0 <= i < |shops| ==>
      exists key :: key in bpMap && shops[i] == bpMap[key].(assignedRepId := shops[i].assignedRepId)
  }

  /** What stays true of the accumulators from row to row. */
  predicate Consistent(st: ImportState, n: nat, bpMap: map<string, Shop>) {
    && st.updatedCount == |st.toUpsert|
    && st.insertedCount == |st.toInsert|
    && st.updatedCount + st.insertedCount <= n
    && NoDup(st.unmatched)
    && NoDup(Ids(st.toUpsert))
    && st.processed == Elems(Ids(st.toUpsert))
    && FromKnownShops(st.toUpsert, bpMap)
    && (forall i :: 0 <= i < |st.toInsert| ==> st.toInsert[i].name != "")
  }

  lemma StepConsistent(st: ImportState, n: nat, v: RowView, bpMap: map<string, Shop>)
    requires Consistent(st, n, bpMap)
    ensures Consistent(Step(st, v, bpMap), n + 1, bpMap)
  {
    var a := Classify(v, bpMap, st.processed);
    if a.UpdateShop? {
      var key := v.bpLower;
      var s := a.shop;
      var t := Step(st, v, bpMap);
      assert t.toUpsert == st.toUpsert + [s];
      assert Ids(t.toUpsert) == Ids(st.toUpsert) + [s.id];
      assert s.id !in Ids(st.toUpsert) by {
        assert s.id !in Elems(Ids(st.toUpsert));
      }
      assert Elems(Ids(t.toUpsert)) == Elems(Ids(st.toUpsert)) + {s.id};
      assert s == bpMap[key].(assignedRepId := s.assignedRepId);
      forall i | 0 <= i < |t.toUpsert|
        ensures exists key :: key in bpMap && t.toUpsert[i] == bpMap[key].(assignedRepId := t.toUpsert[i].assignedRepId)
      {
        if i == |st.toUpsert| {
          assert t.toUpsert[i] == s;
        } else {
          assert t.toUpsert[i] == st.toUpsert[i];
        }
      }
    } else if a.InsertShop? {
      var t := Step(st, v, bpMap);
      assert t.toInsert == st.toInsert + [a.newShop];
      assert t.toUpsert == st.toUpsert;
    } else {
      assert Step(st, v, bpMap).toUpsert == st.toUpsert;
    }
  }

  /** The counters count the queues, they never exceed the number of
      rows, an existing shop is queued for update at most once, each queued
      update is an existing shop changed at most in its rep, and each
      queued insert has a name. */
  lemma {:induction false} ReconcileConsistent(views: seq<RowView>, bpMap: map<string, Shop>)
    ensures Consistent(Reconcile(views, bpMap), |views|, bpMap)
    decreases |views|
  {
    if views != [] {
      var init := views[..|views| - 1];
      ReconcileConsistent(init, bpMap);
      StepConsistent(Reconcile(init, bpMap), |init|, views[|views| - 1], bpMap);
    }
  }

  /** A rep name is reported as unmatched exactly when some row names it
      and it resolves to nothing, even a row dropped as a duplicate. */
  lemma {:induction false} UnmatchedExactly(views: seq<RowView>, bpMap: map<string, Shop>, name: string)
    ensures name in Reconcile(views, bpMap).unmatched
        <==> exists i :: 0 <= i < |views| && Unmatched(views[i]) && views[i].repRaw == name
    decreases |views|
  {
    if views != [] {
      var init := views[..|views| - 1];
      var last := views[|views| - 1];
      UnmatchedExactly(init, bpMap, name);
      var before := Reconcile(init, bpMap).unmatched;
      var after := Reconcile(views, bpMap).unmatched;
      assert after == if Unmatched(last) then Add(before, last.repRaw) else before;
      assert name in after <==> name in Elems(after);
      assert name in before <==> name in Elems(before);
      if exists i :: 0 <= i < |views| && Unmatched(views[i]) && views[i].repRaw == name {
        var i :| 0 <= i < |views| && Unmatched(views[i]) && views[i].repRaw == name;
        if i < |init| {
          assert init[i] == views[i];
        }
      }
    }
  }

  /** A shop already queued is neither queued again nor inserted when a
      later row reaches it by the same BP code; the row can only add its
      rep name to the unmatched ones. */
  lemma DuplicateCodeIgnored(st: ImportState, v: RowView, bpMap: map<string, Shop>)
    requires CodeMatches(v, bpMap) && bpMap[v.bpLower].id in st.processed
    ensures Step(st, v, bpMap) == st.(unmatched := Step(st, v, bpMap).unmatched)
  {
  }

  lemma ReconcileSnoc(views: seq<RowView>, i: nat, bpMap: map<string, Shop>)
    requires i < |views|
    ensures Reconcile(views[..i + 1], bpMap) == Step(Reconcile(views[..i], bpMap), views[i], bpMap)
  {
    assert views[..i + 1][..i] == views[..i];
  }

  /** The loop body's effect, case by case, is `Step`. */
  lemma StepIs(st: ImportState, v: RowView, bpMap: map<string, Shop>, noted: seq<string>, after: ImportState)
    requires noted == if Unmatched(v) then Add(st.unmatched, v.repRaw) else st.unmatched
    requires after.unmatched == noted
    requires match Classify(v, bpMap, st.processed)
             case UpdateShop(s) =>
               after == st.(toUpsert := st.toUpsert + [s], processed := st.processed + {s.id},
                            unmatched := noted, updatedCount := st.updatedCount + 1)
             case InsertShop(n) =>
               after == st.(toInsert := st.toInsert + [n], unmatched := noted, insertedCount := st.insertedCount + 1)
             case _ => after == st.(unmatched := noted)
    ensures after == Step(st, v, bpMap)
  {
  }

  /** The body of the row loop: note an unmatched rep name, then queue
      the update or the insert the row calls for. */
  method ApplyRow(st0: ImportState, v: RowView, bpMap: map<string, Shop>) returns (st: ImportState)
    ensures st == Step(st0, v, bpMap)
  {
    st := st0;
    if Unmatched(v) {
      st := st.(unmatched := Add(st.unmatched, v.repRaw));
    }
    ghost var noted := st.unmatched;
    match Classify(v, bpMap, st.processed) {
      case UpdateShop(s) =>
        st := st.(processed := st.processed + {s.id}, toUpsert := st.toUpsert + [s],
                  updatedCount := st.updatedCount + 1);
      case InsertShop(n) =>
        st := st.(toInsert := st.toInsert + [n], insertedCount := st.insertedCount + 1);
      case AlreadyQueued =>
      case SkipRow =>
    }
    StepIs(st0, v, bpMap, noted, st);
  }

  /** The row loop of the import; `st` holds its accumulators. */
  method ProcessRows(rows: seq<Row>, es: seq<Entry>, bpMap: map<string, Shop>) returns (st: ImportState)
    ensures st == Reconcile(Views(rows, es), bpMap)
  {
    var views := Views(rows, es);
    st := Initial;
    var i := 0;
    assert views[..0] == [];
    while i < |rows|
      invariant 0 <= i <= |rows| == |views|
      invariant st == Reconcile(views[..i], bpMap)
    {
      st := ApplyRow(st, views[i], bpMap);
      ReconcileSnoc(views, i, bpMap);
      i := i + 1;
    }
    assert views[..i] == views;
  }

  // ---------------------------------------------------------------------
  // Import feedback

  /** What the import tells the admin. */
  datatype ImportOutcome =
    | EmptyFile
    | ImportFailed(message: string)
    | NothingToImport
    | Imported(updated: nat, added: nat, missingShown: seq<string>, missingMore: nat)

  /** The error text of the two writes; a write is made only when its
      queue is non-empty. */
  function ErrorMessage(st: ImportState, upsert: BackendResult, insert: BackendResult): (m: string)
    ensures m == "" <==> (|st.toUpsert| == 0 || upsert.Ok?) && (|st.toInsert| == 0 || insert.Ok?)
  {
    (if |st.toUpsert| > 0 && upsert.Failed? then "Update failed: " + upsert.message + " " else "")
    + (if |st.toInsert| > 0 && insert.Failed? then "Insert failed: " + insert.message else "")
  }

  /** The outcome after the writes: a failure message if either write
      failed; a warning when nothing was queued; otherwise the counts and
      the first three unmatched rep names with the number of the others. */
  function Feedback(rowCount: nat, st: ImportState, upsert: BackendResult, insert: BackendResult): (o: ImportOutcome)
    ensures rowCount == 0 <==> o.EmptyFile?
    ensures o.ImportFailed? <==> rowCount > 0 && ErrorMessage(st, upsert, insert) != ""
    ensures o.NothingToImport? <==> rowCount > 0 && ErrorMessage(st, upsert, insert) == ""
                                    && st.updatedCount == 0 && st.insertedCount == 0
    ensures o.Imported? ==> o.updated == st.updatedCount && o.added == st.insertedCount
    ensures o.Imported? ==> |o.missingShown| <= 3 && |o.missingShown| <= |st.unmatched| && o.missingShown + st.unmatched[|o.missingShown|..] == st.unmatched
    ensures o.Imported? ==> |o.missingShown| + o.missingMore == |st.unmatched|
  {
    if rowCount == 0 then EmptyFile
    else
      var err := ErrorMessage(st, upsert, insert);
      if err != "" then ImportFailed(err)
      else if st.updatedCount == 0 && st.insertedCount == 0 then NothingToImport
      else
        var shown := if |st.unmatched| <= 3 then st.unmatched else st.unmatched[..3];
        assert shown + st.unmatched[|shown|..] == st.unmatched;
        Imported(st.updatedCount, st.insertedCount, shown, |st.unmatched| - |shown|)
  }

  /** The import without the screen: an empty file queues nothing;
      otherwise the rows are reconciled and the writes reported. */
  method Import(rows: seq<Row>, reps: seq<RepProfile>, shops: seq<Shop>, upsert: BackendResult, insert: BackendResult)
      returns (o: ImportOutcome, st: ImportState)
    ensures st == Reconcile(Views(rows, Entries(reps)), BpMap(shops))
    ensures o == Feedback(|rows|, st, upsert, insert)
  {
    if |rows| == 0 {
      assert Views(rows, Entries(reps)) == [];
      st := Initial;
    } else {
      var bpMap := BuildBpMap(shops);
      st := ProcessRows(rows, Entries(reps), bpMap);
    }
    o := Feedback(|rows|, st, upsert, insert);
  }

  // ---------------------------------------------------------------------
  // The rep filter

  /** The filter "all" keeps every shop, "unassigned" the shops without a
      rep, any other value the shops of exactly that rep. */
  predicate PassesFilter(s: Shop, filterRep: string) {
    if filterRep == "all" then true
    else if filterRep == "unassigned" then !Truthy(s.assignedRepId)
    else s.assignedRepId == Some(filterRep)
  }

  function FilteredShops(shops: seq<Shop>, filterRep: string): (r: seq<Shop>)
    ensures |r| <= |shops|
    ensures forall s :: s in r <==> s in shops && PassesFilter(s, filterRep)
    ensures filterRep == "all" ==> r == shops
  {
    if shops == [] then []
    else
      var rest := FilteredShops(shops[1..], filterRep);
      assert shops == [shops[0]] + shops[1..];
      if PassesFilter(shops[0], filterRep) then [shops[0]] + rest else rest
  }

  /** Filtering keeps list order and repeats: the filter of a concatenation
      is the filter of the first part followed by that of the second. */
  lemma {:induction false} FilterAppend(a: seq<Shop>, b: seq<Shop>, filterRep: string)
    ensures FilteredShops(a + b, filterRep) == FilteredShops(a, filterRep) + FilteredShops(b, filterRep)
    decreases |a|
  {
    if a == [] {
      assert a + b == b;
    } else {
      assert (a + b)[0] == a[0];
      assert (a + b)[1..] == a[1..] + b;
      FilterAppend(a[1..], b, filterRep);
    }
  }

  /** The filtered shops are all selected, and there is at least one. */
  predicate AllSelected(filtered: seq<Shop>, selected: seq<string>) {
    |filtered| > 0 && forall i :: 0 <= i < |filtered| ==> filtered[i].id in selected
  }

  /** The shops a reload answers with; no answer reads as none. */
  function LoadedShops(shopsData: Option<seq<Shop>>): seq<Shop> {
    if shopsData.Some? then shopsData.value else []
  }

  /** The outcome of a chunked bulk operation. */
  datatype BulkOutcome = NothingSelected | Cancelled | Done(successCount: nat, failCount: nat)

  const DeleteChunk: nat := 20
  const UnassignChunk: nat := 50

  /** The admin's shop screen: the loaded shops, the rep filter, the
      selection in insertion order, and whether the import dialog is open. */
  class ShopAdmin {
    var shops: seq<Shop>
    var filterRep: string
    var selected: seq<string>
    var showImport: bool

    predicate Valid()
      reads this
    {
      NoDup(selected)
    }

    constructor (shops: seq<Shop>)
      ensures Valid()
      ensures this.shops == shops && filterRep == "all" && selected == [] && !showImport
    {
      this.shops := shops;
      filterRep := "all";
      selected := [];
      showImport := false;
    }

    function Filtered(): seq<Shop>
      reads this
    {
      FilteredShops(shops, filterRep)
    }

    /** Selects every filtered shop, or, when all of them are selected
        already, deselects them; the selection of the other shops stays as
        it is. */
    method ToggleSelectAll()
      requires Valid()
      modifies this
      ensures Valid()
      ensures shops == old(shops) && filterRep == old(filterRep) && showImport == old(showImport)
      ensures AllSelected(old(Filtered()), old(selected)) ==>
                Elems(selected) == Elems(old(selected)) - Elems(Ids(old(Filtered())))
      ensures !AllSelected(old(Filtered()), old(selected)) ==>
                Elems(selected) == Elems(old(selected)) + Elems(Ids(old(Filtered())))
                && old(selected) <= selected
    {
      var filtered := Filtered();
      var ids := Ids(filtered);
      var all := AllSelected(filtered, selected);
      var s := selected;
      var i := 0;
      while i < |ids|
        invariant 0 <= i <= |ids|
        invariant NoDup(s)
        invariant all ==> Elems(s) == Elems(selected) - Elems(ids[..i])
        invariant !all ==> Elems(s) == Elems(selected) + Elems(ids[..i]) && selected <= s
      {
        assert Elems(ids[..i + 1]) == Elems(ids[..i]) + {ids[i]} by {
          assert ids[..i + 1] == ids[..i] + [ids[i]];
        }
        if all {
          s := Remove(s, ids[i]);
        } else {
          s := Add(s, ids[i]);
        }
        i := i + 1;
      }
      assert ids[..i] == ids;
      selected := s;
    }

    /** Flips the selection of one shop. */
    method ToggleSelectShop(id: string)
      requires Valid()
      modifies this
      ensures Valid()
      ensures shops == old(shops) && filterRep == old(filterRep) && showImport == old(showImport)
      ensures id in old(selected) ==> Elems(selected) == Elems(old(selected)) - {id}
      ensures forall i :: 0 <= i < |old(selected)| && old(selected)[i] == id ==>
                selected == old(selected)[..i] + old(selected)[i + 1..]
      ensures id !in old(selected) ==> selected == old(selected) + [id]
    {
      if id in selected {
        var kept := Remove(selected, id);
        forall i | 0 <= i < |selected| && selected[i] == id
          ensures kept == selected[..i] + selected[i + 1..]
        {
          RemoveAt(selected, i);
        }
        selected := kept;
      } else {
        selected := Add(selected, id);
      }
    }

    /** `fetchData`: the shops the query returns, a missing answer read as
        none; nothing else on the screen changes. */
    method FetchData(shopsData: Option<seq<Shop>>)
      requires Valid()
      modifies this
      ensures Valid()
      ensures shops == LoadedShops(shopsData)
      ensures filterRep == old(filterRep) && selected == old(selected) && showImport == old(showImport)
    {
      shops := LoadedShops(shopsData);
    }

    /** Deletes the selected shops in chunks of 20, clears the selection
        and reloads the shops; `failures` holds the chunks whose request
        failed and `refetched` is the answer of the reload. */
    method BulkDelete(confirmed: bool, failures: map<nat, string>, refetched: Option<seq<Shop>>) returns (o: BulkOutcome)
      requires Valid()
      modifies this
      ensures Valid()
      ensures filterRep == old(filterRep) && showImport == old(showImport)
      ensures old(selected) == [] ==> o == NothingSelected && selected == old(selected) && shops == old(shops)
      ensures old(selected) != [] && !confirmed ==> o == Cancelled && selected == old(selected) && shops == old(shops)
      ensures old(selected) != [] && confirmed ==>
                o.Done? && selected == [] && shops == LoadedShops(refetched)
                && o.successCount == |Chunks.Run(old(selected), DeleteChunk, 0, failures).succeeded|
                && o.failCount == |Chunks.Run(old(selected), DeleteChunk, 0, failures).failedItems|
                && o.successCount + o.failCount == |old(selected)|
    {
      if |selected| == 0 {
        return NothingSelected;
      }
      if !confirmed {
        return Cancelled;
      }
      var successCount, failCount, _ := Chunks.SendInChunks(selected, DeleteChunk, failures);
      selected := [];
      o := Done(successCount, failCount);
      FetchData(refetched);
    }

    /** Clears the rep of the selected shops in chunks of 50, clears the
        selection and reloads the shops. */
    method BulkUnassign(confirmed: bool, failures: map<nat, string>, refetched: Option<seq<Shop>>) returns (o: BulkOutcome)
      requires Valid()
      modifies this
      ensures Valid()
      ensures filterRep == old(filterRep) && showImport == old(showImport)
      ensures old(selected) == [] ==> o == NothingSelected && selected == old(selected) && shops == old(shops)
      ensures old(selected) != [] && !confirmed ==> o == Cancelled && selected == old(selected) && shops == old(shops)
      ensures old(selected) != [] && confirmed ==>
                o.Done? && selected == [] && shops == LoadedShops(refetched)
                && o.successCount == |Chunks.Run(old(selected), UnassignChunk, 0, failures).succeeded|
                && o.failCount == |Chunks.Run(old(selected), UnassignChunk, 0, failures).failedItems|
                && o.successCount + o.failCount == |old(selected)|
    {
      if |selected| == 0 {
        return NothingSelected;
      }
      if !confirmed {
        return Cancelled;
      }
      var successCount, failCount, _ := Chunks.SendInChunks(selected, UnassignChunk, failures);
      selected := [];
      o := Done(successCount, failCount);
      FetchData(refetched);
    }

    /** Reconciles the imported rows against the loaded shops and the reps
        and reports the outcome of the two writes. A successful import
        closes the dialog, resets the filter to "all" and reloads the
        shops (`refetched` is the reload's answer). */
    method ProcessData(rows: seq<Row>, reps: seq<RepProfile>, upsert: BackendResult, insert: BackendResult,
                       refetched: Option<seq<Shop>>)
        returns (o: ImportOutcome, st: ImportState)
      requires Valid()
      modifies this
      ensures Valid()
      ensures selected == old(selected)
      ensures st == Reconcile(Views(rows, Entries(reps)), BpMap(old(shops)))
      ensures o == Feedback(|rows|, st, upsert, insert)
      ensures o.Imported? ==> filterRep == "all" && !showImport && shops == LoadedShops(refetched)
      ensures !o.Imported? ==> filterRep == old(filterRep) && showImport == old(showImport) && shops == old(shops)
    {
      var loaded := shops;
      o, st := Import(rows, reps, loaded, upsert, insert);
      if o.Imported? {
        CloseImport();
        FetchData(refetched);
      }
    }

    /** After a successful import: the dialog closes and the filter
        shows every shop again. */
    method CloseImport()
      requires Valid()
      modifies this
      ensures Valid()
      ensures shops == old(shops) && selected == old(selected)
      ensures filterRep == "all" && !showImport
    {
      showImport, filterRep := false, "all";
    }
  }

  /** Forty-five selected shops deleted in chunks of 20 where only the
      second request fails: 25 are deleted and 20 fail. */
  lemma SecondDeleteChunkFails(ids: seq<string>)
    requires |ids| == 45
    ensures var t := Chunks.Run(ids, DeleteChunk, 0, map[1 := "violates foreign key"]);
            |t.succeeded| == 25 && |t.failedItems| == 20 && t.failedItems == ids[20..40]
  {
    assert Chunks.ChunkStart(1, 20) == 20 by {
      assert Chunks.ChunkStart(0, 20) == 0;
    }
    Chunks.RunOneFailure(ids, DeleteChunk, 0, 1, 20, "violates foreign key");
  }
}
