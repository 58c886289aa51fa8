/**
 * The advisory status flow: for each status, the statuses offered as quick
 * actions, with the hidden statuses filtered out of every offer.
 */
module StatusFlow {
  import opened Wrappers
  import opened LeadTypes
  import opened Text

  /** Statuses never offered as a new selection, though a lead may still hold them. */
  const HiddenStatuses: seq<LeadStatus> := [NotContacted, Contacted, PendingAgreement, FutureInterest]

  predicate IsHidden(s: LeadStatus) {
    s in HiddenStatuses
  }

  /** The suggested next statuses of each status, in display order. */
  function Flow(s: LeadStatus): seq<LeadStatus> {
    match s
    case NotContacted => [Contacted, NoAnswer, NotRelevant]
    case NoAnswer => [Contacted, MessageSent, NotRelevant, FutureInterest]
    case Contacted => [MeetingSet, MessageSent, PendingAgreement, NotRelevant]
    case MessageSent => [Contacted, MeetingSet, NoAnswer, FutureInterest]
    case MeetingSet => [PendingAgreement, Signed, NotRelevant, ClosedElsewhere]
    case PendingAgreement => [Signed, NotRelevant, ClosedElsewhere]
    case Signed => [UnderReview, ReportSubmitted, MissingDocument, Completed]
    case UnderReview => [ReportSubmitted, MissingDocument, Completed]
    case ReportSubmitted => [Completed, MissingDocument]
    case MissingDocument => [UnderReview, ReportSubmitted, Completed]
    case Completed => [Signed]
    case NotRelevant => [NotContacted, FutureInterest]
    case ClosedElsewhere => [NotContacted, FutureInterest]
    case FutureInterest => [Contacted, NotContacted]
  }

  /** `getVisibleStatuses`: the non-hidden statuses of the input, in input order. */
  function GetVisibleStatuses(statuses: seq<LeadStatus>): (r: seq<LeadStatus>)
    ensures forall s :: s in r <==> s in statuses && !IsHidden(s)
    ensures |r| <= |statuses|
  {
    if statuses == [] then []
    else (if IsHidden(statuses[0]) then [] else [statuses[0]]) + GetVisibleStatuses(statuses[1..])
  }

  /** Filtering distributes over concatenation, so it keeps the relative order of what it keeps. */
  lemma {:induction false} VisibleDistributes(a: seq<LeadStatus>, b: seq<LeadStatus>)
    ensures GetVisibleStatuses(a + b) == GetVisibleStatuses(a) + GetVisibleStatuses(b)
  {
    if a == [] {
      assert a + b == b;
    } else {
      assert (a + b)[1..] == a[1..] + b;
      VisibleDistributes(a[1..], b);
    }
  }

  /** Filtering twice is filtering once, and a list without hidden statuses is left as it is. */
  lemma {:induction false} VisibleIdempotent(statuses: seq<LeadStatus>)
    ensures GetVisibleStatuses(GetVisibleStatuses(statuses)) == GetVisibleStatuses(statuses)
    ensures (forall i :: 0 <= i < |statuses| ==> !IsHidden(statuses[i])) ==> GetVisibleStatuses(statuses) == statuses
  {
    if statuses != [] {
      VisibleIdempotent(statuses[1..]);
      var head := if IsHidden(statuses[0]) then [] else [statuses[0]];
      VisibleDistributes(head, GetVisibleStatuses(statuses[1..]));
    }
  }

  /**
   * `getQuickActions`, with the flow looked up by own keys only: the visible
   * suggestions for a stored status; a null or empty status reads as
   * `not_contacted`, and any other unknown one offers nothing.
   */
  function GetQuickActions(current: Option<string>): (r: seq<LeadStatus>)
    ensures forall s :: s in r ==> !IsHidden(s)
    ensures forall s: LeadStatus :: current == Some(StatusName(s)) ==> r == GetVisibleStatuses(Flow(s))
    ensures ParseStatus(StatusKey(current)).None? ==> r == []
  {
    ParseStatusName();
    var actions := match ParseStatus(StatusKey(current))
      case Some(s) => Flow(s)
      case None => [];
    GetVisibleStatuses(actions)
  }

  /**
   * `getQuickActions` as written: `STATUS_FLOW[status] || []` indexes a plain
   * object, so a stored status naming an inherited member finds that member
   * (a function or an object, so the `||` keeps it) and `.filter` throws a
   * `TypeError`.  Every other string behaves as `GetQuickActions` does.
   */
  function GetQuickActionsAsWritten(current: Option<string>): (r: Result<seq<LeadStatus>>)
    ensures r.Failure? <==> StatusKey(current) in PrototypeNames
    ensures r.Success? ==> r.value == GetQuickActions(current)
  {
    if StatusKey(current) in PrototypeNames then Failure("TypeError: actions.filter is not a function")
    else Success(GetQuickActions(current))
  }

  /** A lead whose stored status is `constructor` makes the source throw, where the model offers nothing. */
  lemma InheritedStatusThrows(status: string)
    requires status == "constructor"
    ensures GetQuickActionsAsWritten(Some(status)).Failure?
    ensures GetQuickActions(Some(status)) == []
  {
    assert status in PrototypeNames;
  }

  /** No status name is an inherited member name, so the two agree on every stored canonical status. */
  lemma AsWrittenAgreesOnStatuses(s: LeadStatus)
    ensures GetQuickActionsAsWritten(Some(StatusName(s))) == Success(GetQuickActions(Some(StatusName(s))))
  {
    assert StatusName(s) !in PrototypeNames by {
      match s
      case NotContacted =>
      case NoAnswer =>
      case Contacted =>
      case MessageSent =>
      case MeetingSet =>
      case PendingAgreement =>
      case Signed =>
      case UnderReview =>
      case ReportSubmitted =>
      case MissingDocument =>
      case Completed =>
      case NotRelevant =>
      case ClosedElsewhere =>
      case FutureInterest =>
    }
  }

  /** A lead with no status is offered what a `not_contacted` lead is offered: no answer or not relevant. */
  lemma QuickActionsForMissingStatus()
    ensures GetQuickActions(None) == GetQuickActions(Some("")) == GetQuickActions(Some("not_contacted"))
    ensures GetQuickActions(None) == [NoAnswer, NotRelevant]
  {
    assert GetVisibleStatuses([NotRelevant]) == [NotRelevant];
    assert GetVisibleStatuses([NoAnswer, NotRelevant]) == [NoAnswer] + GetVisibleStatuses([NotRelevant]);
  }

  /** No status suggests itself, and every status has at least one suggestion. */
  lemma FlowHasNoSelfLoops(s: LeadStatus)
    ensures s !in Flow(s)
    ensures |Flow(s)| >= 1
  {
  }

  /** Suggestions from a signed-stage status stay in the signed stage. */
  lemma SignedStageIsClosed(s: LeadStatus, t: LeadStatus)
    requires Config(s).pipelineStage == SignedStage
    requires t in Flow(s)
    ensures Config(t).pipelineStage == SignedStage
  {
  }
}
