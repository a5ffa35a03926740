/** The rep's shop list: search, the visited marks, and the visit dialog
    with its outcome selection, its prefill and the decision made when a
    visit is completed. Locating the device is outside the model; its
    result is an input. */
module ShopList {
  import opened Text
  import opened Domain
  import opened OrderedSet

  // ---------------------------------------------------------------------
  // Search

  /** `field && field.toLowerCase().includes(term)` */
  predicate FieldMatches(field: Option<string>, term: string) {
    field.Some? && field.value != "" && Contains(Lower(field.value), term)
  }

  /** A shop matches the lowered term on its name, its town or its code. */
  predicate Matches(shop: Shop, search: string) {
    Contains(Lower(shop.name), Lower(search))
    || FieldMatches(shop.town, Lower(search)) || FieldMatches(shop.bpCode, Lower(search))
  }

  /** The shops shown for a search term, in list order. */
  function FilteredShops(shops: seq<Shop>, search: string): (r: seq<Shop>)
    ensures |r| <= |shops|
    ensures forall s :: s in r <==> s in shops && Matches(s, search)
    decreases |shops|
  {
    if shops == [] then []
    else
      var rest := FilteredShops(shops[1..], search);
      assert forall s :: s in shops <==> s == shops[0] || s in shops[1..];
      if Matches(shops[0], search) then [shops[0]] + rest else rest
  }

  /** The search keeps list order and repeats: the result for a
      concatenation is the result for the first part followed by that of
      the second. */
  lemma {:induction false} SearchAppend(a: seq<Shop>, b: seq<Shop>, search: string)
    ensures FilteredShops(a + b, search) == FilteredShops(a, search) + FilteredShops(b, search)
    decreases |a|
  {
    if a == [] {
      assert a + b == b;
    } else {
      assert (a + b)[0] == a[0];
      assert (a + b)[1..] == a[1..] + b;
      SearchAppend(a[1..], b, search);
    }
  }

  /** The empty search keeps every shop, in order. */
  lemma {:induction false} EmptySearchKeepsAll(shops: seq<Shop>)
    ensures FilteredShops(shops, "") == shops
    decreases |shops|
  {
    if shops != [] {
      EmptySearchKeepsAll(shops[1..]);
      ContainsEmpty(Lower(shops[0].name));
      assert Lower("") == "";
      assert [shops[0]] + shops[1..] == shops;
    }
  }

  // ---------------------------------------------------------------------
  // Visited marks

  /** `new Set(visits.map(v => v.shop_id))` */
  function VisitedIds(visits: seq<Visit>): (ids: set<string>)
    ensures forall id :: id in ids <==> exists i :: 0 <= i < |visits| && visits[i].shopId == id
  {
    set i | 0 <= i < |visits| :: visits[i].shopId
  }

  /** Recording a visit marks exactly its shop as visited, in addition. */
  lemma RecordMarksVisited(v: Visit, visits: seq<Visit>)
    ensures VisitedIds([v] + visits) == VisitedIds(visits) + {v.shopId}
  {
    var after := [v] + visits;
    forall id | id in VisitedIds(visits)
      ensures id in VisitedIds(after)
    {
      var i :| 0 <= i < |visits| && visits[i].shopId == id;
      assert after[i + 1] == visits[i];
    }
    assert after[0] == v;
  }

  /** A visit to the shop on the day log. */
  predicate OnLog(v: Visit, shopId: string, logId: string) {
    v.shopId == shopId && v.dailyLogId == logId
  }

  /** The visit a tap on a visited shop edits: the first of that shop's
      visits on the same day log as the first visit of the list. */
  function EditTarget(visits: seq<Visit>, shopId: string): (r: Option<Visit>)
    ensures r.Some? ==> r.value in visits && r.value.shopId == shopId && r.value.dailyLogId == visits[0].dailyLogId
    ensures r.Some? ==> exists i :: 0 <= i < |visits| && visits[i] == r.value
                          && forall j :: 0 <= j < i ==> !OnLog(visits[j], shopId, visits[0].dailyLogId)
    ensures r.None? ==> forall i :: 0 <= i < |visits| ==> visits[i].shopId != shopId || visits[i].dailyLogId != visits[0].dailyLogId
  {
    if visits == [] then None else FindOn(visits, shopId, visits[0].dailyLogId)
  }

  /** `visits.find(...)`: the first visit to the shop on the day log. */
  function FindOn(visits: seq<Visit>, shopId: string, logId: string): (r: Option<Visit>)
    ensures r.Some? ==> r.value in visits && r.value.shopId == shopId && r.value.dailyLogId == logId
    ensures r.Some? ==> exists i :: 0 <= i < |visits| && visits[i] == r.value
                          && forall j :: 0 <= j < i ==> !OnLog(visits[j], shopId, logId)
    ensures r.None? ==> forall i :: 0 <= i < |visits| ==> visits[i].shopId != shopId || visits[i].dailyLogId != logId
    decreases |visits|
  {
    if visits == [] then None
    else if OnLog(visits[0], shopId, logId) then Some(visits[0])
    else
      var r := FindOn(visits[1..], shopId, logId);
      assert forall i :: 1 <= i < |visits| ==> visits[i] == visits[1..][i - 1];
      if r.Some? then
        var i :| 0 <= i < |visits[1..]| && visits[1..][i] == r.value
                 && forall j :: 0 <= j < i ==> !OnLog(visits[1..][j], shopId, logId);
        assert visits[i + 1] == r.value;
        r
      else r
  }

  // ---------------------------------------------------------------------
  // Outcome encoding

  /** `Array.from(selected).join(",")` */
  function Encode(selected: seq<string>): string {
    Join(selected, ',')
  }

  /** `new Set(outcome.split(","))` */
  function Decode(outcome: string): (r: seq<string>)
    ensures NoDup(r) && |r| >= 1
    ensures forall t :: t in r ==> ',' !in t
    ensures Elems(r) == Elems(Split(outcome, ','))
    ensures r[0] == Split(outcome, ',')[0]
  {
    var parts := Split(outcome, ',');
    var r := FromSeq(parts);
    assert parts[0] in Elems(parts);
    assert forall t :: t in r ==> t in Elems(r);
    r
  }

  /** A selection of comma-free tags survives being stored and read back. */
  lemma DecodeEncode(selected: seq<string>)
    requires |selected| >= 1 && NoDup(selected)
    requires forall t :: t in selected ==> ',' !in t
    ensures Decode(Encode(selected)) == selected
  {
    SplitJoin(selected, ',');
  }

  /** The tags of the outcome enumeration encode to a string whose parts
      are those tags. */
  lemma EncodeOutcomes(outcomes: seq<Outcome>)
    requires |outcomes| >= 1
    ensures var tags := seq(|outcomes|, i requires 0 <= i < |outcomes| => OutcomeTag(outcomes[i]));
            Split(Encode(tags), ',') == tags
  {
    var tags := seq(|outcomes|, i requires 0 <= i < |outcomes| => OutcomeTag(outcomes[i]));
    SplitJoin(tags, ',');
  }

  // ---------------------------------------------------------------------
  // The visit dialog

  /** What completing a visit does. */
  datatype CompleteAction =
    | NoShop
    | GpsRequired     // "GPS coordinates are required."
    | NoOutcome       // "Please select at least one outcome."
    | UpdateExisting(visitId: string, outcome: string, note: string)
    | RecordNew(shopId: string, outcome: string, note: string, gpsLat: Option<real>, gpsLng: Option<real>)

  /** A coordinate is kept on edit only when it is present and not 0. */
  predicate TruthyCoord(c: Option<real>) {
    c.Some? && c.value != 0.0
  }

  class VisitDialog {
    var visitingShop: Option<Shop>
    var editingVisit: Option<Visit>
    /** The selected outcome tags, in insertion order. */
    var selected: seq<string>
    var note: string
    var gps: Option<(real, real)>
    var bypassGps: bool

    /** The selection is a set of tags without commas. */
    predicate Valid()
      reads this
    {
      NoDup(selected) && forall t :: t in selected ==> ',' !in t
    }

    constructor ()
      ensures Valid()
      ensures visitingShop == None && editingVisit == None && selected == ["just_visit"]
      ensures note == "" && gps == None && !bypassGps
    {
      visitingShop := None;
      editingVisit := None;
      selected := ["just_visit"];
      note := "";
      gps := None;
      bypassGps := false;
    }

    /** Ticking a tag: an absent one is added, a present one is removed
        only while another stays selected. */
    method ToggleOutcome(o: Outcome)
      requires Valid()
      modifies this
      ensures Valid()
      ensures visitingShop == old(visitingShop) && editingVisit == old(editingVisit)
      ensures note == old(note) && gps == old(gps) && bypassGps == old(bypassGps)
      ensures OutcomeTag(o) !in old(selected) ==> selected == old(selected) + [OutcomeTag(o)]
      ensures OutcomeTag(o) in old(selected) && |old(selected)| > 1 ==>
                Elems(selected) == Elems(old(selected)) - {OutcomeTag(o)} && |selected| == |old(selected)| - 1
      ensures OutcomeTag(o) in old(selected) && |old(selected)| > 1 ==>
                forall i :: 0 <= i < |old(selected)| && old(selected)[i] == OutcomeTag(o) ==>
                  selected == old(selected)[..i] + old(selected)[i + 1..]
      ensures OutcomeTag(o) in old(selected) && |old(selected)| <= 1 ==> selected == old(selected)
      ensures |old(selected)| > 0 ==> |selected| > 0
    {
      var tag := OutcomeTag(o);
      if tag in selected {
        if |selected| > 1 {
          var kept := Remove(selected, tag);
          assert forall t :: t in kept ==> t in Elems(kept);
          forall i | 0 <= i < |selected| && selected[i] == tag
            ensures kept == selected[..i] + selected[i + 1..]
          {
            RemoveAt(selected, i);
          }
          selected := kept;
        }
      } else {
        selected := Add(selected, tag);
      }
    }

    /** Opening the dialog on a shop. A new visit starts from
        `{just_visit}`; an edit decodes the stored tags and keeps the
        stored position only when both coordinates are truthy. The new
        visit's location request is made outside the model. */
    method OpenVisitDialog(shop: Shop, existing: Option<Visit>)
      requires Valid()
      modifies this
      ensures Valid()
      ensures visitingShop == Some(shop) && editingVisit == existing && !bypassGps
      ensures |selected| > 0
      ensures existing.None? ==> selected == ["just_visit"] && note == "" && gps == None
      ensures existing.Some? ==>
                selected == Decode(existing.value.outcome)
                && note == (if existing.value.note.Some? then existing.value.note.value else "")
                && (gps.Some? <==> TruthyCoord(existing.value.gpsLat) && TruthyCoord(existing.value.gpsLng))
                && (gps.Some? ==> gps.value == (existing.value.gpsLat.value, existing.value.gpsLng.value))
    {
      visitingShop := Some(shop);
      bypassGps := false;
      editingVisit := existing;
      if existing.Some? {
        var v := existing.value;
        selected := Decode(v.outcome);
        note := if v.note.Some? then v.note.value else "";
        if TruthyCoord(v.gpsLat) && TruthyCoord(v.gpsLng) {
          gps := Some((v.gpsLat.value, v.gpsLng.value));
        } else {
          gps := None;
        }
      } else {
        selected := ["just_visit"];
        note := "";
        gps := None;
      }
    }

    /** The result of a location request: a fix, or none. */
    method ReceiveGps(fix: Option<(real, real)>)
      requires Valid()
      modifies this
      ensures Valid()
      ensures gps == fix && !bypassGps
      ensures visitingShop == old(visitingShop) && editingVisit == old(editingVisit)
      ensures selected == old(selected) && note == old(note)
    {
      bypassGps := false;
      gps := fix;
    }

    /** "Continue without GPS". */
    method BypassGps()
      requires Valid()
      modifies this
      ensures Valid()
      ensures bypassGps && gps == old(gps)
      ensures visitingShop == old(visitingShop) && editingVisit == old(editingVisit)
      ensures selected == old(selected) && note == old(note)
    {
      bypassGps := true;
    }

    /** Completing the visit: refused without a shop, without a position
        unless bypassed, and with no outcome; otherwise an edit updates the
        visit (when an update handler is given) and anything else records a
        new visit with the position, if any. The dialog closes when the
        call returns without throwing. */
    method HandleCompleteVisit(hasUpdateHandler: bool, thrown: bool) returns (a: CompleteAction)
      requires Valid()
      modifies this
      ensures Valid()
      ensures selected == old(selected) && note == old(note) && gps == old(gps) && bypassGps == old(bypassGps)
      ensures a == NoShop <==> old(visitingShop).None?
      ensures a == GpsRequired <==> old(visitingShop).Some? && old(gps).None? && !old(bypassGps)
      ensures a == NoOutcome <==> old(visitingShop).Some? && (old(gps).Some? || old(bypassGps)) && old(selected) == []
      ensures a.UpdateExisting? ==>
                old(editingVisit).Some? && hasUpdateHandler && a.visitId == old(editingVisit).value.id
                && a.outcome == Encode(old(selected)) && a.note == old(note)
      ensures a.RecordNew? ==>
                !(old(editingVisit).Some? && hasUpdateHandler) && a.shopId == old(visitingShop).value.id
                && a.outcome == Encode(old(selected)) && a.note == old(note)
                && a.gpsLat == (if old(gps).Some? then Some(old(gps).value.0) else None)
                && a.gpsLng == (if old(gps).Some? then Some(old(gps).value.1) else None)
      ensures (a.UpdateExisting? || a.RecordNew?) && !thrown ==> visitingShop == None && editingVisit == None
      ensures !(a.UpdateExisting? || a.RecordNew?) || thrown ==>
                visitingShop == old(visitingShop) && editingVisit == old(editingVisit)
    {
      if visitingShop.None? {
        return NoShop;
      }
      if gps.None? && !bypassGps {
        return GpsRequired;
      }
      if |selected| == 0 {
        return NoOutcome;
      }
      var outcome := Encode(selected);
      var lat := if gps.Some? then Some(gps.value.0) else None;
      var lng := if gps.Some? then Some(gps.value.1) else None;
      if editingVisit.Some? && hasUpdateHandler {
        a := UpdateExisting(editingVisit.value.id, outcome, note);
      } else {
        a := RecordNew(visitingShop.value.id, outcome, note, lat, lng);
      }
      if !thrown {
        visitingShop := None;
        editingVisit := None;
      }
    }
  }
}
