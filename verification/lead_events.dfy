/**
 * The `lead_events` audit table.  Every server action that changes a lead or
 * one of its notes appends rows here and never rewrites old ones, so the
 * table is a log held by one object that the lead, note and webhook code
 * share.
 */
module LeadEvents {
  import opened Wrappers
  import opened LeadTypes

  /**
   * One audit row; `metadata` holds the JSON object's string-valued entries.
   * A `None` entry stands for a key the code sets to `null` or `undefined`;
   * storing the JSON drops the `undefined` ones, which this map does not
   * tell apart.
   */
  datatype LeadEvent = LeadEvent(
    leadId: string,
    eventType: EventType,
    fieldName: Option<string>,
    oldValue: Option<string>,
    newValue: Option<string>,
    userEmail: Option<string>,
    metadata: map<string, Option<string>>)

  /** An event that records only who did what to which lead. */
  function PlainEvent(leadId: string, eventType: EventType, userEmail: Option<string>): (e: LeadEvent)
    ensures e.leadId == leadId && e.eventType == eventType && e.userEmail == userEmail
    ensures e.fieldName.None? && e.oldValue.None? && e.newValue.None? && e.metadata == map[]
  {
    LeadEvent(leadId, eventType, None, None, None, userEmail, map[])
  }

  /** The events of one lead, in the order they were appended. */
  function EventsFor(log: seq<LeadEvent>, leadId: string): (es: seq<LeadEvent>)
    ensures |es| <= |log|
    ensures forall k :: 0 <= k < |es| ==> es[k].leadId == leadId
  {
    if log == [] then []
    else
      var n := |log| - 1;
      EventsFor(log[..n], leadId) + (if log[n].leadId == leadId then [log[n]] else [])
  }

  /** Appending only adds to the history of the lead the new event is about. */
  lemma EventsForAppend(log: seq<LeadEvent>, e: LeadEvent, leadId: string)
    ensures EventsFor(log + [e], leadId)
            == EventsFor(log, leadId) + (if e.leadId == leadId then [e] else [])
  {
    assert (log + [e])[..|log|] == log;
  }

  /** The audit log. */
  class EventLog {
    var entries: seq<LeadEvent>

    constructor ()
      ensures entries == []
    {
      entries := [];
    }

    /** Inserts one row; the rows already there stay as they are. */
    method Append(e: LeadEvent)
      modifies this
      ensures entries == old(entries) + [e]
    {
      entries := entries + [e];
    }
  }
}
