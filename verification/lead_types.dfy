/**
 * The lead vocabulary: the fourteen lead statuses in their canonical order,
 * the six pipeline stages and which statuses each groups, the per-status
 * display configuration, and the nine kinds of lead event.
 */
module LeadTypes {
  import opened Wrappers
  import opened Text

  datatype LeadStatus =
    | NotContacted | NoAnswer
    | Contacted | MessageSent
    | MeetingSet | PendingAgreement
    | Signed | UnderReview | ReportSubmitted | MissingDocument | Completed
    | NotRelevant | ClosedElsewhere
    | FutureInterest

  /** The string stored in `leads.status` for each status. */
  function StatusName(s: LeadStatus): string {
    match s
    case NotContacted => "not_contacted"
    case NoAnswer => "no_answer"
    case Contacted => "contacted"
    case MessageSent => "message_sent"
    case MeetingSet => "meeting_set"
    case PendingAgreement => "pending_agreement"
    case Signed => "signed"
    case UnderReview => "under_review"
    case ReportSubmitted => "report_submitted"
    case MissingDocument => "missing_document"
    case Completed => "completed"
    case NotRelevant => "not_relevant"
    case ClosedElsewhere => "closed_elsewhere"
    case FutureInterest => "future_interest"
  }

  /** The canonical status list, in declaration order. */
  const LeadStatuses: seq<LeadStatus> := [
    NotContacted, NoAnswer, Contacted, MessageSent, MeetingSet, PendingAgreement,
    Signed, UnderReview, ReportSubmitted, MissingDocument, Completed,
    NotRelevant, ClosedElsewhere, FutureInterest
  ]

  /** Looks a stored status string up among the canonical names. */
  function ParseStatus(x: string): (r: Option<LeadStatus>)
    ensures r.Some? ==> StatusName(r.value) == x
    ensures r.None? ==> forall s: LeadStatus :: StatusName(s) != x
  {
    if x == "not_contacted" then Some(NotContacted)
    else if x == "no_answer" then Some(NoAnswer)
    else if x == "contacted" then Some(Contacted)
    else if x == "message_sent" then Some(MessageSent)
    else if x == "meeting_set" then Some(MeetingSet)
    else if x == "pending_agreement" then Some(PendingAgreement)
    else if x == "signed" then Some(Signed)
    else if x == "under_review" then Some(UnderReview)
    else if x == "report_submitted" then Some(ReportSubmitted)
    else if x == "missing_document" then Some(MissingDocument)
    else if x == "completed" then Some(Completed)
    else if x == "not_relevant" then Some(NotRelevant)
    else if x == "closed_elsewhere" then Some(ClosedElsewhere)
    else if x == "future_interest" then Some(FutureInterest)
    else None
  }

  /**
   * The key a possibly-missing stored status is looked up under: a null or
   * empty status reads as `not_contacted`.
   */
  function StatusKey(status: Option<string>): (key: string)
    ensures key != ""
    ensures status.Some? && status.value != "" ==> key == status.value
  {
    if status.None? || status.value == "" then "not_contacted" else status.value
  }

  /** Every status is listed, and listed once. */
  lemma StatusesListedOnce()
    ensures |LeadStatuses| == 14
    ensures forall s: LeadStatus :: s in LeadStatuses
    ensures forall i, j :: 0 <= i < j < |LeadStatuses| ==> LeadStatuses[i] != LeadStatuses[j]
  {
    forall s: LeadStatus ensures s in LeadStatuses {
      match s
      case NotContacted => assert LeadStatuses[0] == s;
      case NoAnswer => assert LeadStatuses[1] == s;
      case Contacted => assert LeadStatuses[2] == s;
      case MessageSent => assert LeadStatuses[3] == s;
      case MeetingSet => assert LeadStatuses[4] == s;
      case PendingAgreement => assert LeadStatuses[5] == s;
      case Signed => assert LeadStatuses[6] == s;
      case UnderReview => assert LeadStatuses[7] == s;
      case ReportSubmitted => assert LeadStatuses[8] == s;
      case MissingDocument => assert LeadStatuses[9] == s;
      case Completed => assert LeadStatuses[10] == s;
      case NotRelevant => assert LeadStatuses[11] == s;
      case ClosedElsewhere => assert LeadStatuses[12] == s;
      case FutureInterest => assert LeadStatuses[13] == s;
    }
  }

  /** Every status is listed exactly once and the fourteen names are pairwise distinct. */
  lemma StatusListComplete()
    ensures |LeadStatuses| == 14
    ensures forall s: LeadStatus :: s in LeadStatuses
    ensures forall i, j :: 0 <= i < j < |LeadStatuses| ==> StatusName(LeadStatuses[i]) != StatusName(LeadStatuses[j])
  {
    StatusesListedOnce();
    forall i, j | 0 <= i < j < |LeadStatuses|
      ensures StatusName(LeadStatuses[i]) != StatusName(LeadStatuses[j])
    {
      StatusNameInjective(LeadStatuses[i], LeadStatuses[j]);
    }
  }

  /** Parsing a status's name gives the status back; different statuses have different names. */
  lemma StatusNameInjective(a: LeadStatus, b: LeadStatus)
    ensures ParseStatus(StatusName(a)) == Some(a)
    ensures StatusName(a) == StatusName(b) ==> a == b
  {
  }

  /** Every canonical name parses back to its status. */
  lemma ParseStatusName()
    ensures forall s: LeadStatus {:trigger StatusName(s)} :: ParseStatus(StatusName(s)) == Some(s)
  {
    forall s: LeadStatus ensures ParseStatus(StatusName(s)) == Some(s) {
      StatusNameInjective(s, s);
    }
  }

  datatype PipelineStage = FollowUp | Warm | Hot | SignedStage | Lost | Future

  function StageName(st: PipelineStage): string {
    match st
    case FollowUp => "follow_up"
    case Warm => "warm"
    case Hot => "hot"
    case SignedStage => "signed"
    case Lost => "lost"
    case Future => "future"
  }

  /** The stages in the order the pipeline lists them. */
  const PipelineStages: seq<PipelineStage> := [FollowUp, Warm, Hot, SignedStage, Lost, Future]

  /** The statuses each pipeline stage groups. */
  function StageStatuses(st: PipelineStage): seq<LeadStatus> {
    match st
    case FollowUp => [NotContacted, NoAnswer]
    case Warm => [Contacted, MessageSent]
    case Hot => [MeetingSet, PendingAgreement]
    case SignedStage => [Signed, UnderReview, ReportSubmitted, MissingDocument, Completed]
    case Lost => [NotRelevant, ClosedElsewhere]
    case Future => [FutureInterest]
  }

  /** Display configuration of a status; colours are not modelled. */
  datatype StatusConfig = StatusConfig(displayLabel: string, cssClass: string, pipelineStage: PipelineStage)

  function Config(s: LeadStatus): StatusConfig {
    match s
    case NotContacted => StatusConfig("טרם יצרנו קשר", "status-not-contacted", FollowUp)
    case NoAnswer => StatusConfig("אין מענה", "status-no-answer", FollowUp)
    case Contacted => StatusConfig("נוצר קשר", "status-contacted", Warm)
    case MessageSent => StatusConfig("נשלחה הודעה", "status-message-sent", Warm)
    case MeetingSet => StatusConfig("נקבעה שיחה", "status-meeting-set", Hot)
    case PendingAgreement => StatusConfig("בהמתנה להסכם", "status-pending-agreement", Hot)
    case Signed => StatusConfig("חתם על הסכם התקשרות", "status-signed", SignedStage)
    case UnderReview => StatusConfig("בבדיקה", "status-under-review", SignedStage)
    case ReportSubmitted => StatusConfig("הוגש דוח", "status-report-submitted", SignedStage)
    case MissingDocument => StatusConfig("חסר מסמך", "status-missing-document", SignedStage)
    case Completed => StatusConfig("הושלם", "status-completed", SignedStage)
    case NotRelevant => StatusConfig("לא רלוונטי", "status-not-relevant", Lost)
    case ClosedElsewhere => StatusConfig("סגר במקום אחר", "status-closed-elsewhere", Lost)
    case FutureInterest => StatusConfig("מעוניין בעתיד", "status-future-interest", Future)
  }

  /**
   * The stages partition the statuses: a status is listed under a stage
   * exactly when its configuration names that stage, so each status is in
   * exactly one stage.
   */
  lemma StagesPartitionStatuses()
    ensures forall s: LeadStatus, st: PipelineStage :: s in StageStatuses(st) <==> Config(s).pipelineStage == st
    ensures forall st: PipelineStage :: st in PipelineStages
  {
    forall s: LeadStatus, st: PipelineStage
      ensures s in StageStatuses(st) <==> Config(s).pipelineStage == st
    {
      match st
      case FollowUp =>
      case Warm =>
      case Hot =>
      case SignedStage =>
      case Lost =>
      case Future =>
    }
    forall st: PipelineStage ensures st in PipelineStages {
      match st
      case FollowUp => assert PipelineStages[0] == st;
      case Warm => assert PipelineStages[1] == st;
      case Hot => assert PipelineStages[2] == st;
      case SignedStage => assert PipelineStages[3] == st;
      case Lost => assert PipelineStages[4] == st;
      case Future => assert PipelineStages[5] == st;
    }
  }

  /** The position of a stage in the pipeline order. */
  function StagePosition(st: PipelineStage): (r: nat)
    ensures r < |PipelineStages| && PipelineStages[r] == st
  {
    match st
    case FollowUp => 0
    case Warm => 1
    case Hot => 2
    case SignedStage => 3
    case Lost => 4
    case Future => 5
  }

  /** Where a status sits in the list of the stage its configuration names. */
  function PositionInStage(s: LeadStatus): (m: nat)
    ensures m < |StageStatuses(Config(s).pipelineStage)| && StageStatuses(Config(s).pipelineStage)[m] == s
  {
    match s
    case NotContacted => 0
    case NoAnswer => 1
    case Contacted => 0
    case MessageSent => 1
    case MeetingSet => 0
    case PendingAgreement => 1
    case Signed => 0
    case UnderReview => 1
    case ReportSubmitted => 2
    case MissingDocument => 3
    case Completed => 4
    case NotRelevant => 0
    case ClosedElsewhere => 1
    case FutureInterest => 0
  }

  /** Each status a stage lists is configured with that stage. */
  lemma ListedStatusInStage(st: PipelineStage, i: nat)
    requires i < |StageStatuses(st)|
    ensures Config(StageStatuses(st)[i]).pipelineStage == st
  {
  }

  /** Reading the stages in pipeline order lists every status in canonical order. */
  lemma StagesConcatenateToStatusList()
    ensures StageStatuses(FollowUp) + StageStatuses(Warm) + StageStatuses(Hot)
            + StageStatuses(SignedStage) + StageStatuses(Lost) + StageStatuses(Future) == LeadStatuses
  {
  }

  datatype EventType =
    | Created | Updated | FieldChanged | StatusChanged | Deleted | Restored
    | NoteAdded | NoteUpdated | NoteDeleted

  /** The string stored in `lead_events.event_type`. */
  function EventTypeName(e: EventType): string {
    match e
    case Created => "created"
    case Updated => "updated"
    case FieldChanged => "field_changed"
    case StatusChanged => "status_changed"
    case Deleted => "deleted"
    case Restored => "restored"
    case NoteAdded => "note_added"
    case NoteUpdated => "note_updated"
    case NoteDeleted => "note_deleted"
  }

  const EventTypes: seq<EventType> := [
    Created, Updated, FieldChanged, StatusChanged, Deleted, Restored,
    NoteAdded, NoteUpdated, NoteDeleted
  ]

  /** Display configuration of an event type; colours are not modelled. */
  datatype EventConfig = EventConfig(displayLabel: string, icon: string)

  function EventDisplay(e: EventType): EventConfig {
    match e
    case Created => EventConfig("ליד נוצר", "Plus")
    case Updated => EventConfig("עודכן", "Pencil")
    case FieldChanged => EventConfig("שדה שונה", "ArrowLeftRight")
    case StatusChanged => EventConfig("סטטוס שונה", "RefreshCw")
    case Deleted => EventConfig("נמחק", "Trash")
    case Restored => EventConfig("שוחזר", "RotateCcw")
    case NoteAdded => EventConfig("הערה נוספה", "MessageSquarePlus")
    case NoteUpdated => EventConfig("הערה עודכנה", "MessageSquare")
    case NoteDeleted => EventConfig("הערה נמחקה", "MessageSquareX")
  }

  /** Every event type is listed, and listed once. */
  lemma EventTypesListedOnce()
    ensures |EventTypes| == 9
    ensures forall e: EventType :: e in EventTypes
    ensures forall i, j :: 0 <= i < j < |EventTypes| ==> EventTypes[i] != EventTypes[j]
  {
    forall e: EventType ensures e in EventTypes {
      match e
      case Created => assert EventTypes[0] == e;
      case Updated => assert EventTypes[1] == e;
      case FieldChanged => assert EventTypes[2] == e;
      case StatusChanged => assert EventTypes[3] == e;
      case Deleted => assert EventTypes[4] == e;
      case Restored => assert EventTypes[5] == e;
      case NoteAdded => assert EventTypes[6] == e;
      case NoteUpdated => assert EventTypes[7] == e;
      case NoteDeleted => assert EventTypes[8] == e;
    }
  }

  /** Different event types have different stored names and different icons. */
  lemma EventTypeNamesDistinct(a: EventType, b: EventType)
    ensures EventTypeName(a) == EventTypeName(b) ==> a == b
    ensures EventDisplay(a).icon == EventDisplay(b).icon ==> a == b
  {
  }

  /** The nine event types are all listed, under pairwise distinct names and distinct icons. */
  lemma EventTypesComplete()
    ensures |EventTypes| == 9
    ensures forall e: EventType :: e in EventTypes
    ensures forall i, j :: 0 <= i < j < |EventTypes| ==> EventTypeName(EventTypes[i]) != EventTypeName(EventTypes[j])
    ensures forall i, j :: 0 <= i < j < |EventTypes| ==> EventDisplay(EventTypes[i]).icon != EventDisplay(EventTypes[j]).icon
  {
    EventTypesListedOnce();
    forall i, j | 0 <= i < j < |EventTypes|
      ensures EventTypeName(EventTypes[i]) != EventTypeName(EventTypes[j])
      ensures EventDisplay(EventTypes[i]).icon != EventDisplay(EventTypes[j]).icon
    {
      EventTypeNamesDistinct(EventTypes[i], EventTypes[j]);
    }
  }
}
