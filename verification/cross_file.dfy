/**
 * How the status every new lead is written with reads in the rest of the
 * system.  Both `createLead` and the webhook store `new`, a legacy name
 * that is not one of the fourteen statuses: the classifier files such a
 * lead under `follow_up` through its fallback and offers no next status,
 * while the dashboard counters count it as `new`.  Conversely the counters
 * see nothing of the canonical statuses apart from `contacted`.
 */
module NewLeadStatus {
  import opened Wrappers
  import opened LeadTypes
  import opened StatusUtils
  import opened StatusFlow
  import opened Kpis
  import opened Leads

  /** The stored status column of each lead, in order. */
  function Statuses(ls: seq<Lead>): (ss: seq<Option<string>>)
    ensures |ss| == |ls|
    ensures forall i :: 0 <= i < |ls| ==> ss[i] == ls[i].status
  {
    if ls == [] then [] else [ls[0].status] + Statuses(ls[1..])
  }

  /** A freshly inserted lead is shown in `follow_up` with `not_contacted`'s badge and offered no next status. */
  lemma InsertedLeadClassification(id: string, ins: LeadInsert)
    ensures var l := InsertedRow(id, ins);
            && ParseStatus(StatusKey(l.status)).None?
            && GetStatusPipelineStage(l.status) == FollowUp
            && GetStatusConfig(l.status) == Config(NotContacted)
            && GetQuickActions(l.status) == []
  {
    assert StatusKey(Some("new")) == "new";
  }

  /**
   * A list of leads that all still carry `new` is counted in full by the
   * `new` counter, and every one of them sits in `follow_up`.
   */
  lemma FreshLeadsCountedAsNew(ls: seq<Lead>)
    requires forall i :: 0 <= i < |ls| ==> ls[i].status == Some("new")
    ensures Tally(Statuses(ls)).newCount == Tally(Statuses(ls)).total == |ls|
    ensures forall i :: 0 <= i < |ls| ==> GetStatusPipelineStage(ls[i].status) == FollowUp
  {
    var ss := Statuses(ls);
    TallyCounts(ss);
    TallyTotalIsAllRows(ss);
    assert Some("contacted") !in ss && Some("customer") !in ss && Some("lost") !in ss;
  }

  /**
   * The dashboard counters and the fourteen statuses share only the name
   * `contacted`: over leads that all hold canonical statuses no lead is
   * counted as new, customer or lost, so the conversion rate is 0 however
   * many leads are signed.
   */
  lemma CanonicalStatusesConvertNothing(ss: seq<Option<string>>)
    requires forall k :: 0 <= k < |ss| ==> ss[k].Some? && ParseStatus(ss[k].value).Some?
    ensures Tally(ss).newCount == 0 && Tally(ss).customerCount == 0 && Tally(ss).lostCount == 0
    ensures Tally(ss).total == Tally(ss).contactedCount == multiset(ss)[Some("contacted")]
    ensures Percentage(Tally(ss).customerCount, Tally(ss).total) == 0.0
  {
    forall k | 0 <= k < |ss| ensures ss[k] != Some("new") && ss[k] != Some("customer") && ss[k] != Some("lost") {
      OnlyContactedIsLegacy(ParseStatus(ss[k].value).value);
    }
    TallyCounts(ss);
    NoPartIsZeroPercent(Tally(ss).total);
  }

  lemma NoPartIsZeroPercent(whole: nat)
    ensures Percentage(0, whole) == 0.0
  {
  }

  /** Of the four counter names only `contacted` is the name of a status. */
  lemma OnlyContactedIsLegacy(s: LeadStatus)
    ensures StatusName(s) != "new" && StatusName(s) != "customer" && StatusName(s) != "lost"
  {
  }
}
