/**
 * Pushing Zoho statuses into the CRM: which match records become pending
 * status updates, the dry run, and the success and failure counters of the
 * real run.  Writing one update is an oracle supplied by the caller.
 */
module StatusSync {
  import opened Wrappers
  import opened Text
  import opened LeadTypes
  import opened Reconcile

  /** The fourteen canonical status names the sync accepts. */
  const ValidStatuses: set<string> := {
    "not_contacted", "no_answer",
    "contacted", "message_sent",
    "meeting_set", "pending_agreement",
    "signed", "under_review", "report_submitted", "missing_document", "completed",
    "not_relevant", "closed_elsewhere",
    "future_interest"
  }

  /** The accepted names are exactly the names of the lead statuses. */
  lemma ValidStatusesAreLeadStatuses(x: string)
    ensures x in ValidStatuses <==> ParseStatus(x).Some?
  {
  }

  /** `new`, the status of a lead with an empty Zoho status, is not accepted. */
  lemma NewIsNotValid()
    ensures "new" !in ValidStatuses
  {
    ValidStatusesAreLeadStatuses("new");
  }

  datatype StatusUpdate = StatusUpdate(
    supabaseId: string, leadName: string, oldStatus: string, newStatus: string,
    zohoId: string, zohoNotes: Option<string>, matchType: string, matchConfidence: real)

  /** Python truthiness of `match.supabase_id`: present and non-empty. */
  predicate IsMatched(m: MatchResult) {
    m.supabaseId.Some? && m.supabaseId.value != ""
  }

  /** `bool(match.zoho_notes and match.zoho_notes.strip())`. */
  predicate HasNotes(notes: Option<string>) {
    notes.Some? && Trim(notes.value) != ""
  }

  /** A match becomes an update when it is matched, has something to sync and a valid status. */
  predicate ShouldSync(m: MatchResult, includeNotesOnly: bool) {
    && IsMatched(m)
    && (m.statusDiffers || (includeNotesOnly && HasNotes(m.zohoNotes)))
    && m.zohoStatus in ValidStatuses
  }

  /** The update built from a match; a missing or empty CRM status reads as `unknown`. */
  function ToUpdate(m: MatchResult): (u: StatusUpdate)
    requires IsMatched(m)
    ensures u.supabaseId == m.supabaseId.value && u.supabaseId != ""
    ensures u.newStatus == m.zohoStatus && u.zohoId == m.zohoId && u.leadName == m.zohoName
    ensures u.oldStatus == "unknown" <==> m.supabaseStatus.None? || m.supabaseStatus.value in {"", "unknown"}
    ensures u.oldStatus != "unknown" ==> m.supabaseStatus == Some(u.oldStatus)
  {
    var oldStatus := if m.supabaseStatus.None? || m.supabaseStatus.value == "" then "unknown" else m.supabaseStatus.value;
    StatusUpdate(m.supabaseId.value, m.zohoName, oldStatus, m.zohoStatus, m.zohoId, m.zohoNotes,
                 MatchTypeName(m.matchType), m.matchConfidence)
  }

  /** The updates for a list of matches: the selected ones, in their order. */
  function PendingUpdates(ms: seq<MatchResult>, includeNotesOnly: bool): (us: seq<StatusUpdate>)
    ensures |us| <= |ms|
    ensures forall k :: 0 <= k < |us| ==> us[k].newStatus in ValidStatuses && us[k].supabaseId != ""
  {
    if ms == [] then []
    else
      var n := |ms| - 1;
      PendingUpdates(ms[..n], includeNotesOnly)
        + (if ShouldSync(ms[n], includeNotesOnly) then [ToUpdate(ms[n])] else [])
  }

  /** Selection works match by match, so it keeps the relative order of the matches. */
  lemma {:induction false} PendingUpdatesConcat(a: seq<MatchResult>, b: seq<MatchResult>, includeNotesOnly: bool)
    ensures PendingUpdates(a + b, includeNotesOnly) == PendingUpdates(a, includeNotesOnly) + PendingUpdates(b, includeNotesOnly)
    decreases |b|
  {
    if b == [] {
      assert a + b == a;
    } else {
      var n := |b| - 1;
      assert (a + b)[..|a| + n] == a + b[..n];
      assert (a + b)[|a| + n] == b[n];
      PendingUpdatesConcat(a, b[..n], includeNotesOnly);
    }
  }

  /** A match is turned into an update exactly when it should be synced. */
  lemma {:induction false} PendingUpdatesMembers(ms: seq<MatchResult>, includeNotesOnly: bool)
    ensures forall m :: m in ms && ShouldSync(m, includeNotesOnly) ==> ToUpdate(m) in PendingUpdates(ms, includeNotesOnly)
    ensures forall u :: u in PendingUpdates(ms, includeNotesOnly) ==>
              exists m :: m in ms && ShouldSync(m, includeNotesOnly) && u == ToUpdate(m)
  {
    if ms != [] {
      var n := |ms| - 1;
      PendingUpdatesMembers(ms[..n], includeNotesOnly);
      assert ms == ms[..n] + [ms[n]];
      forall m | m in ms && ShouldSync(m, includeNotesOnly)
        ensures ToUpdate(m) in PendingUpdates(ms, includeNotesOnly)
      {
        if m != ms[n] {
          assert m in ms[..n];
        }
      }
      forall u | u in PendingUpdates(ms, includeNotesOnly)
        ensures exists m :: m in ms && ShouldSync(m, includeNotesOnly) && u == ToUpdate(m)
      {
        if u !in PendingUpdates(ms[..n], includeNotesOnly) {
          assert ShouldSync(ms[n], includeNotesOnly) && u == ToUpdate(ms[n]);
        } else {
          var m :| m in ms[..n] && ShouldSync(m, includeNotesOnly) && u == ToUpdate(m);
          assert m in ms;
        }
      }
    }
  }

  /** A Zoho lead whose status was empty carries `new`, which is never synced. */
  lemma EmptyZohoStatusNeverSynced(m: MatchResult, includeNotesOnly: bool)
    requires m.zohoStatus == NormalizeZohoStatus("")
    ensures !ShouldSync(m, includeNotesOnly)
  {
    NewIsNotValid();
  }

  /** `get_pending_updates`: one pass over the matches, appending each selected one. */
  method GetPendingUpdates(ms: seq<MatchResult>, includeNotesOnly: bool) returns (updates: seq<StatusUpdate>)
    ensures updates == PendingUpdates(ms, includeNotesOnly)
  {
    updates := [];
    for i := 0 to |ms|
      invariant updates == PendingUpdates(ms[..i], includeNotesOnly)
    {
      var m := ms[i];
      assert ms[..i + 1][..i] == ms[..i];
      if !IsMatched(m) {
        continue;
      }
      var hasNotes := m.zohoNotes.Some? && Trim(m.zohoNotes.value) != "";
      var shouldInclude := m.statusDiffers || (includeNotesOnly && hasNotes);
      if !shouldInclude {
        continue;
      }
      if m.zohoStatus !in ValidStatuses {
        continue;
      }
      updates := updates + [ToUpdate(m)];
    }
    assert ms[..|ms|] == ms;
  }

  datatype SyncResult = SyncResult(success: bool, attempted: int, succeeded: int, failed: int, errors: seq<string>)

  /** The counters of a run add up, one error per failure, and it succeeded exactly when nothing failed. */
  predicate Balanced(r: SyncResult) {
    && r.succeeded + r.failed == r.attempted
    && |r.errors| == r.failed
    && (r.success <==> r.failed == 0)
  }

  /** `apply_updates_dry_run`: every update counts as applied. */
  function ApplyUpdatesDryRun(updates: seq<StatusUpdate>): (r: SyncResult)
    ensures Balanced(r) && r.attempted == |updates|
    ensures r.success && r.failed == 0 && r.errors == []
  {
    SyncResult(true, |updates|, |updates|, 0, [])
  }

  /** The outcome of writing one update: success, or failure with a message. */
  type Applier = StatusUpdate -> (bool, string)

  /** How many of the updates the writer accepts. */
  function Succeeded(updates: seq<StatusUpdate>, apply: Applier): nat {
    if updates == [] then 0
    else
      var n := |updates| - 1;
      Succeeded(updates[..n], apply) + (if apply(updates[n]).0 then 1 else 0)
  }

  /** The error lines of the updates the writer refuses, in order. */
  function Errors(updates: seq<StatusUpdate>, apply: Applier): (es: seq<string>)
    ensures |es| + Succeeded(updates, apply) == |updates|
  {
    if updates == [] then []
    else
      var n := |updates| - 1;
      var (ok, msg) := apply(updates[n]);
      Errors(updates[..n], apply)
        + (if ok then [] else ["Failed to update " + updates[n].leadName + ": " + msg])
  }

  const MissingCredentials: string := "Supabase credentials not configured"

  /**
   * `apply_updates`: without a CRM address and key nothing is attempted and
   * every update counts as failed under one error; otherwise each update is
   * written in turn and counted as a success or a failure.
   */
  method ApplyUpdates(updates: seq<StatusUpdate>, url: Option<string>, serviceKey: Option<string>, apply: Applier)
    returns (r: SyncResult)
    ensures url.None? || url == Some("") || serviceKey.None? || serviceKey == Some("") ==>
              r == SyncResult(false, |updates|, 0, |updates|, [MissingCredentials])
    ensures url.Some? && url != Some("") && serviceKey.Some? && serviceKey != Some("") ==>
              Balanced(r) && r.attempted == |updates| && r.succeeded == Succeeded(updates, apply)
              && r.errors == Errors(updates, apply)
  {
    if url.None? || url.value == "" || serviceKey.None? || serviceKey.value == "" {
      return SyncResult(false, |updates|, 0, |updates|, [MissingCredentials]);
    }
    var errors: seq<string> := [];
    var succeeded := 0;
    var failed := 0;
    for i := 0 to |updates|
      invariant succeeded == Succeeded(updates[..i], apply)
      invariant errors == Errors(updates[..i], apply)
      invariant failed == |errors|
    {
      assert updates[..i + 1][..i] == updates[..i];
      var (ok, msg) := apply(updates[i]);
      if ok {
        succeeded := succeeded + 1;
      } else {
        failed := failed + 1;
        errors := errors + ["Failed to update " + updates[i].leadName + ": " + msg];
      }
    }
    assert updates[..|updates|] == updates;
    r := SyncResult(failed == 0, |updates|, succeeded, failed, errors);
  }

  /** When the writer accepts every update, the run succeeds with no errors, like the dry run. */
  lemma {:induction false} AllAcceptedMatchesDryRun(updates: seq<StatusUpdate>, apply: Applier)
    requires forall u :: u in updates ==> apply(u).0
    ensures Succeeded(updates, apply) == |updates| && Errors(updates, apply) == []
  {
    if updates != [] {
      var n := |updates| - 1;
      assert forall u :: u in updates[..n] ==> u in updates;
      AllAcceptedMatchesDryRun(updates[..n], apply);
      assert updates[n] in updates;
    }
  }
}
