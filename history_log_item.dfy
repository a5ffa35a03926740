/** One day in the history list: its distance, its visit count, the
    personal-distance line and the outcome badges of each visit. */
module HistoryLogItem {
  import opened Text
  import opened Domain

  /** A reading counts only when present and not 0. */
  predicate Truthy(m: Option<nat>) {
    m.Some? && m.value != 0
  }

  /** `end_meter && start_meter ? end_meter - start_meter : 0` */
  function TotalKm(log: DailyLog): (k: int)
    ensures Truthy(log.endMeter) && Truthy(log.startMeter) ==> k == log.endMeter.value - log.startMeter.value
    ensures !(Truthy(log.endMeter) && Truthy(log.startMeter)) ==> k == 0
  {
    if Truthy(log.endMeter) && Truthy(log.startMeter) then log.endMeter.value - log.startMeter.value else 0
  }

  /** A day read from 0 shows no distance, even when the car moved. */
  lemma ZeroStartShowsNoDistance(log: DailyLog, end: nat)
    requires log.startMeter == Some(0) && log.endMeter == Some(end)
    ensures TotalKm(log) == 0
  {
  }

  /** `visit${n !== 1 ? "s" : ""}` */
  function VisitWord(n: nat): (w: string)
    ensures w == "visit" <==> n == 1
    ensures w == "visit" || w == "visits"
  {
    "visit" + (if n != 1 then "s" else "")
  }

  /** `personal_km > 0`: the personal line appears only for a positive
      personal distance. */
  predicate ShowsPersonal(log: DailyLog) {
    log.personalKm.Some? && log.personalKm.value > 0.0
  }

  /** A day not yet ended (no personal distance, `null > 0` being false) and
      a day ended with 0 personal km show no personal line; a day ended
      with a positive personal distance shows it. */
  lemma PersonalLine(log: DailyLog, p: real)
    ensures !ShowsPersonal(log.(personalKm := None))
    ensures ShowsPersonal(log.(personalKm := Some(p))) <==> p > 0.0
  {
  }

  /** The enumeration value a stored tag names, if any. */
  function TagOutcome(tag: string): (r: Option<Outcome>)
    ensures r.Some? ==> OutcomeTag(r.value) == tag
    ensures r.None? ==> forall o :: OutcomeTag(o) != tag
  {
    if tag == "order_taken" then Some(OrderTaken)
    else if tag == "collection" then Some(Collection)
    else if tag == "just_visit" then Some(JustVisit)
    else if tag == "shop_closed" then Some(ShopClosed)
    else None
  }

  /** `OUTCOME_LABELS`: the label shown for each outcome, a readable text
      other than the stored tag. */
  function OutcomeLabel(o: Outcome): (l: string)
    ensures l != "" && l != OutcomeTag(o)
  {
    match o
    case OrderTaken => "Order Taken"
    case Collection => "Collection"
    case JustVisit => "Just Visit"
    case ShopClosed => "Shop Closed"
  }

  /** `OUTCOME_LABELS[o] || o`: the label of a known tag, else the tag. */
  function Label(tag: string): (l: string)
    ensures (forall o :: OutcomeTag(o) != tag) ==> l == tag
  {
    match TagOutcome(tag)
    case Some(o) => OutcomeLabel(o)
    case None => tag
  }

  /** One badge per comma-separated tag of the stored outcome. */
  function Badges(outcome: string): (b: seq<string>)
    ensures |b| == |Split(outcome, ',')| && |b| >= 1
    ensures forall i :: 0 <= i < |b| ==> b[i] == Label(Split(outcome, ',')[i])
  {
    var tags := Split(outcome, ',');
    seq(|tags|, i requires 0 <= i < |tags| => Label(tags[i]))
  }

  /** Different outcomes are shown with different labels. */
  lemma LabelsDistinct(a: Outcome, b: Outcome)
    ensures a != b ==> OutcomeLabel(a) != OutcomeLabel(b)
  {
  }

  /** A known tag is shown with the enumeration's label. */
  lemma LabelOfTag(o: Outcome)
    ensures Label(OutcomeTag(o)) == OutcomeLabel(o)
  {
  }

  /** A visit stored with several outcomes shows one labelled badge per
      outcome, in the order they were chosen. */
  lemma BadgesOfStoredOutcomes(outcomes: seq<Outcome>)
    requires |outcomes| >= 1
    ensures var tags := seq(|outcomes|, i requires 0 <= i < |outcomes| => OutcomeTag(outcomes[i]));
            Badges(Join(tags, ',')) == seq(|outcomes|, i requires 0 <= i < |outcomes| => OutcomeLabel(outcomes[i]))
  {
    var tags := seq(|outcomes|, i requires 0 <= i < |outcomes| => OutcomeTag(outcomes[i]));
    SplitJoin(tags, ',');
    forall i | 0 <= i < |outcomes|
      ensures Label(tags[i]) == OutcomeLabel(outcomes[i])
    {
      LabelOfTag(outcomes[i]);
    }
  }

  /** `v.shops?.name || "Unknown Shop"` */
  function ShopName(shop: Option<string>): (n: string)
    ensures shop.Some? && shop.value != "" ==> n == shop.value
    ensures shop.None? || shop.value == "" ==> n == "Unknown Shop"
  {
    if shop.Some? && shop.value != "" then shop.value else "Unknown Shop"
  }
}
