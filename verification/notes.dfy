/**
 * Notes on leads: the `lead_notes` table with its content and ownership
 * checks, soft deletion, the newest-first listing with author names, the
 * per-lead counters, and the audit rows each change appends.  Timestamps
 * are integers (seconds) so that the listing order can be stated.
 */
module Notes {
  import opened Wrappers
  import opened Text
  import opened LeadTypes
  import opened LeadEvents
  import opened UserProfiles

  datatype Note = Note(id: string, leadId: string, content: string, userId: string,
                       createdAt: int, deletedAt: Option<int>)

  /** A note as the actions return it, with its author's name and email. */
  datatype NoteWithUser = NoteWithUser(note: Note, userDisplayName: string, userEmail: string)

  const EmptyContent: string := "Note content cannot be empty"
  const ProfileFailed: string := "Failed to get user profile"
  const NoteNotFound: string := "Note not found"
  const NotYourNoteToEdit: string := "You can only edit your own notes"
  const NotYourNoteToDelete: string := "You can only delete your own notes"
  const NoteDuplicateKey: string := "duplicate key value violates unique constraint \"lead_notes_pkey\""

  // ----- previews written to the audit log -----

  /** `s.substring(0, n)`: the first `n` characters, or all of a shorter string. */
  function Prefix(s: string, n: nat): (r: string)
    ensures |r| == if |s| < n then |s| else n
    ensures r == s[..|r|]
  {
    if |s| <= n then s else s[..n]
  }

  /** The `note_added` value: up to 100 characters, and `...` exactly when some were cut. */
  function AddedPreview(content: string): (r: string)
    ensures |content| <= 100 ==> r == content
    ensures |content| > 100 ==> |r| == 103 && r[..100] == content[..100] && r[100..] == "..."
  {
    Prefix(content, 100) + (if |content| > 100 then "..." else "")
  }

  /** The `note_updated` and `note_deleted` values: up to 50 characters and always `...`. */
  function EditPreview(content: string): (r: string)
    ensures |r| == (if |content| < 50 then |content| else 50) + 3
    ensures r[|r| - 3..] == "..."
    ensures r[..|r| - 3] == content[..|r| - 3]
  {
    Prefix(content, 50) + "..."
  }

  function NoteAddedEvent(n: Note, userEmail: Option<string>, displayName: string): (e: LeadEvent)
    ensures e.leadId == n.leadId && e.eventType == NoteAdded && e.userEmail == userEmail
    ensures e.newValue == Some(AddedPreview(n.content)) && e.oldValue.None?
    ensures e.metadata == map["note_id" := Some(n.id), "user_display_name" := Some(displayName)]
  {
    LeadEvent(n.leadId, NoteAdded, None, None, Some(AddedPreview(n.content)), userEmail,
              map["note_id" := Some(n.id), "user_display_name" := Some(displayName)])
  }

  function NoteUpdatedEvent(n: Note, newContent: string, userEmail: Option<string>): (e: LeadEvent)
    ensures e.leadId == n.leadId && e.eventType == NoteUpdated && e.userEmail == userEmail
    ensures e.oldValue == Some(EditPreview(n.content)) && e.newValue == Some(EditPreview(newContent))
    ensures e.metadata == map["note_id" := Some(n.id)]
  {
    LeadEvent(n.leadId, NoteUpdated, None, Some(EditPreview(n.content)), Some(EditPreview(newContent)), userEmail,
              map["note_id" := Some(n.id)])
  }

  function NoteDeletedEvent(n: Note, userEmail: Option<string>): (e: LeadEvent)
    ensures e.leadId == n.leadId && e.eventType == NoteDeleted && e.userEmail == userEmail
    ensures e.oldValue == Some(EditPreview(n.content)) && e.newValue.None?
    ensures e.metadata == map["note_id" := Some(n.id)]
  {
    LeadEvent(n.leadId, NoteDeleted, None, Some(EditPreview(n.content)), None, userEmail,
              map["note_id" := Some(n.id)])
  }

  // ----- which notes are visible -----

  /** A note that is shown: on the given lead and not soft-deleted. */
  predicate IsLive(n: Note, leadId: string) {
    n.leadId == leadId && n.deletedAt.None?
  }

  /** The ids among `ks` of the live notes of one lead. */
  function LiveIn(rows: map<string, Note>, leadId: string, ks: set<string>): set<string> {
    set k | k in ks && k in rows && IsLive(rows[k], leadId)
  }

  /** The ids of the live notes of one lead. */
  function LiveNoteIds(rows: map<string, Note>, leadId: string): set<string> {
    LiveIn(rows, leadId, rows.Keys)
  }

  /** The ids among `ks` of the live notes of any of the given leads. */
  function LiveOfLeadsIn(rows: map<string, Note>, leadIds: seq<string>, ks: set<string>): set<string> {
    set k | k in ks && k in rows && rows[k].leadId in leadIds && rows[k].deletedAt.None?
  }

  /** A soft delete hides the note from its lead and from no other. */
  lemma DeleteHidesNote(rows: map<string, Note>, id: string, now: int, leadId: string)
    requires id in rows
    ensures LiveNoteIds(rows[id := rows[id].(deletedAt := Some(now))], leadId) == LiveNoteIds(rows, leadId) - {id}
  {
  }

  /** A new note shows up on its lead, and only there. */
  lemma CreateShowsNote(rows: map<string, Note>, n: Note, leadId: string)
    requires n.id !in rows && n.deletedAt.None?
    ensures LiveNoteIds(rows[n.id := n], leadId)
            == if n.leadId == leadId then LiveNoteIds(rows, leadId) + {n.id} else LiveNoteIds(rows, leadId)
  {
  }

  /** Editing the content neither shows nor hides a note. */
  lemma EditKeepsLiveNotes(rows: map<string, Note>, id: string, content: string, leadId: string)
    requires id in rows
    ensures LiveNoteIds(rows[id := rows[id].(content := content)], leadId) == LiveNoteIds(rows, leadId)
  {
  }

  lemma LiveInAdd(rows: map<string, Note>, leadId: string, done: set<string>, k: string)
    requires k in rows && k !in done
    ensures |LiveIn(rows, leadId, done + {k})| == |LiveIn(rows, leadId, done)| + (if IsLive(rows[k], leadId) then 1 else 0)
  {
    if IsLive(rows[k], leadId) {
      assert LiveIn(rows, leadId, done + {k}) == LiveIn(rows, leadId, done) + {k};
    } else {
      assert LiveIn(rows, leadId, done + {k}) == LiveIn(rows, leadId, done);
    }
  }

  lemma LiveOfLeadsInAdd(rows: map<string, Note>, leadIds: seq<string>, done: set<string>, k: string)
    requires k in rows && k !in done
    ensures |LiveOfLeadsIn(rows, leadIds, done + {k})|
            == |LiveOfLeadsIn(rows, leadIds, done)| + (if rows[k].leadId in leadIds && rows[k].deletedAt.None? then 1 else 0)
  {
    if rows[k].leadId in leadIds && rows[k].deletedAt.None? {
      assert LiveOfLeadsIn(rows, leadIds, done + {k}) == LiveOfLeadsIn(rows, leadIds, done) + {k};
    } else {
      assert LiveOfLeadsIn(rows, leadIds, done + {k}) == LiveOfLeadsIn(rows, leadIds, done);
    }
  }

  /** Newest first: `created_at` never increases along the list. */
  predicate NewestFirst(ns: seq<Note>) {
    forall i, j :: 0 <= i < j < |ns| ==> ns[j].createdAt <= ns[i].createdAt
  }

  /** A finite non-empty set of rows has a newest one. */
  lemma {:induction false} NewestExists(rows: map<string, Note>, ks: set<string>)
    requires ks != {} && ks <= rows.Keys
    ensures exists k :: k in ks && forall j :: j in ks ==> rows[j].createdAt <= rows[k].createdAt
    decreases |ks|
  {
    var k :| k in ks;
    if ks != {k} {
      NewestExists(rows, ks - {k});
      var m :| m in ks - {k} && forall j :: j in ks - {k} ==> rows[j].createdAt <= rows[m].createdAt;
      if rows[k].createdAt <= rows[m].createdAt {
        assert forall j :: j in ks ==> rows[j].createdAt <= rows[m].createdAt;
      } else {
        assert forall j :: j in ks ==> rows[j].createdAt <= rows[k].createdAt;
      }
    }
  }

  /** `profile?.display_name ?? 'Unknown User'` and `profile?.email ?? ''`. */
  function WithAuthor(n: Note, profiles: map<string, UserProfile>): (r: NoteWithUser)
    ensures r.note == n
    ensures n.userId in profiles ==> r.userDisplayName == profiles[n.userId].displayName && r.userEmail == profiles[n.userId].email
    ensures n.userId !in profiles ==> r.userDisplayName == "Unknown User" && r.userEmail == ""
  {
    if n.userId in profiles then NoteWithUser(n, profiles[n.userId].displayName, profiles[n.userId].email)
    else NoteWithUser(n, "Unknown User", "")
  }

  /** `notes.map(n => n.user_id)`. */
  function Authors(ns: seq<Note>): (ids: seq<string>)
    ensures |ids| == |ns| && forall i :: 0 <= i < |ns| ==> ids[i] == ns[i].userId
  {
    if ns == [] then [] else [ns[0].userId] + Authors(ns[1..])
  }

  /** `notes.map(note => ({ ...note, user_display_name, user_email }))`. */
  function WithAuthors(ns: seq<Note>, profiles: map<string, UserProfile>): (r: seq<NoteWithUser>)
    ensures |r| == |ns| && forall i :: 0 <= i < |ns| ==> r[i] == WithAuthor(ns[i], profiles)
  {
    if ns == [] then [] else [WithAuthor(ns[0], profiles)] + WithAuthors(ns[1..], profiles)
  }

  /** Looking up only the authors of the notes finds the same names as looking in the whole table. */
  lemma AuthorsResolved(ns: seq<Note>, found: map<string, UserProfile>, table: map<string, UserProfile>)
    requires forall u :: u in found <==> u in Authors(ns) && u in table
    requires forall u :: u in found ==> found[u] == table[u]
    ensures WithAuthors(ns, found) == WithAuthors(ns, table)
  {
    forall i | 0 <= i < |ns|
      ensures WithAuthor(ns[i], found) == WithAuthor(ns[i], table)
    {
      assert Authors(ns)[i] == ns[i].userId;
    }
  }

  // ----- counting -----

  /** The sum of the values of a map. */
  ghost function SumValues(m: map<string, int>): int
    decreases |m|
  {
    if m == map[] then 0
    else
      var k :| k in m;
      m[k] + SumValues(m - {k})
  }

  /** The sum does not depend on which key is taken first. */
  lemma {:induction false} SumValuesRemove(m: map<string, int>, k: string)
    requires k in m
    ensures SumValues(m) == m[k] + SumValues(m - {k})
    decreases |m|
  {
    var k' :| k' in m && SumValues(m) == m[k'] + SumValues(m - {k'});
    if k' != k {
      SumValuesRemove(m - {k'}, k);
      SumValuesRemove(m - {k}, k');
      assert m - {k'} - {k} == m - {k} - {k'};
    }
  }

  /** Counting one more row for `id` adds one to the sum. */
  lemma SumValuesBump(m: map<string, int>, id: string)
    ensures SumValues(m[id := (if id in m then m[id] else 0) + 1]) == SumValues(m) + 1
  {
    var m' := m[id := (if id in m then m[id] else 0) + 1];
    SumValuesRemove(m', id);
    if id in m {
      SumValuesRemove(m, id);
      assert m' - {id} == m - {id};
    } else {
      assert m' - {id} == m;
    }
  }

  /** The loop of `getNoteCountsForLeads`: one counter per lead id, bumped once per row. */
  method CountByLead(data: seq<string>) returns (counts: map<string, int>)
    ensures forall id :: id in counts <==> id in data
    ensures forall id :: id in counts ==> counts[id] == multiset(data)[id]
    ensures SumValues(counts) == |data|
  {
    counts := map[];
    for i := 0 to |data|
      invariant forall id :: id in counts <==> id in data[..i]
      invariant forall id :: id in counts ==> counts[id] == multiset(data[..i])[id]
      invariant SumValues(counts) == i
    {
      var id := data[i];
      assert data[..i + 1] == data[..i] + [id];
      SumValuesBump(counts, id);
      var currentCount := if id in counts then counts[id] else 0;
      counts := counts[id := currentCount + 1];
    }
    assert data[..|data|] == data;
  }

  /**
   * The part of `getOrCreateUserProfile` the note actions rely on: with a
   * user id and an email there is a profile for the user afterwards and it
   * is the one returned; otherwise nothing changes.
   */
  method FetchProfile(profiles: ProfileTable, userId: Option<string>, userEmail: Option<string>,
                      newProfileRowId: string, raced: Option<UserProfile>)
    returns (r: Result<UserProfile>)
    requires profiles.Valid()
    modifies profiles
    ensures profiles.Valid()
    ensures Present(userId) && Present(userEmail) ==>
              r.Success? && userId.value in profiles.rows && profiles.rows[userId.value] == r.value
    ensures !Present(userId) || !Present(userEmail) ==> r.Failure? && profiles.rows == old(profiles.rows)
  {
    r := profiles.GetOrCreateUserProfile(userId, userEmail, newProfileRowId, raced);
  }

  /**
   * The state of the newest-first selection: the notes taken so far are the
   * live ones no longer pending, each once, newest first, and none newer
   * than any still pending.
   */
  ghost predicate SelectedSoFar(rows: map<string, Note>, live: set<string>, pending: set<string>, notes: seq<Note>) {
    && pending <= live <= rows.Keys
    && |notes| + |pending| == |live|
    && (forall i :: 0 <= i < |notes| ==> notes[i].id in live - pending && notes[i] == rows[notes[i].id])
    && (forall k :: k in live - pending ==> exists i :: 0 <= i < |notes| && notes[i].id == k)
    && NewestFirst(notes)
    && (forall i, k :: 0 <= i < |notes| && k in pending ==> rows[k].createdAt <= notes[i].createdAt)
  }

  /** Taking the newest pending note keeps the selection in order. */
  lemma SelectStep(rows: map<string, Note>, live: set<string>, pending: set<string>, notes: seq<Note>, k: string)
    requires SelectedSoFar(rows, live, pending, notes)
    requires forall j :: j in rows ==> rows[j].id == j
    requires k in pending && forall j :: j in pending ==> rows[j].createdAt <= rows[k].createdAt
    ensures SelectedSoFar(rows, live, pending - {k}, notes + [rows[k]])
  {
    var notes' := notes + [rows[k]];
    var pending' := pending - {k};
    forall k' | k' in live - pending'
      ensures exists i :: 0 <= i < |notes'| && notes'[i].id == k'
    {
      if k' == k {
        assert notes'[|notes|].id == k';
      } else {
        assert k' in live - pending;
        var i :| 0 <= i < |notes| && notes[i].id == k';
        assert notes'[i].id == k';
      }
    }
  }

  /**
   * The state of the counting query: `data` holds one lead id per live note
   * of the requested leads among the rows already looked at (those not in
   * `todo`).
   */
  ghost predicate CollectedSoFar(rows: map<string, Note>, leadIds: seq<string>, todo: set<string>, data: seq<string>) {
    && todo <= rows.Keys
    && (forall id :: multiset(data)[id] == if id in leadIds then |LiveIn(rows, id, rows.Keys - todo)| else 0)
    && |data| == |LiveOfLeadsIn(rows, leadIds, rows.Keys - todo)|
  }

  lemma CollectStart(rows: map<string, Note>, leadIds: seq<string>)
    ensures CollectedSoFar(rows, leadIds, rows.Keys, [])
  {
    assert rows.Keys - rows.Keys == {};
    forall id
      ensures LiveIn(rows, id, {}) == {}
    {
    }
    assert LiveOfLeadsIn(rows, leadIds, {}) == {};
  }

  /** Looking at one more row keeps the collected ids in step. */
  lemma CollectStep(rows: map<string, Note>, leadIds: seq<string>, todo: set<string>, data: seq<string>, k: string,
                    found: seq<string>)
    requires CollectedSoFar(rows, leadIds, todo, data)
    requires k in todo
    requires found == if rows[k].leadId in leadIds && rows[k].deletedAt.None? then [rows[k].leadId] else []
    ensures CollectedSoFar(rows, leadIds, todo - {k}, data + found)
  {
    var done := rows.Keys - todo;
    assert rows.Keys - (todo - {k}) == done + {k};
    var data' := data + found;
    forall id
      ensures multiset(data')[id] == if id in leadIds then |LiveIn(rows, id, done + {k})| else 0
    {
      LiveInAdd(rows, id, done, k);
    }
    LiveOfLeadsInAdd(rows, leadIds, done, k);
  }

  class NoteTable {
    var rows: map<string, Note>

    /** Every note is filed under its own id. */
    ghost predicate Valid()
      reads this
    {
      forall k :: k in rows ==> rows[k].id == k
    }

    constructor ()
      ensures rows == map[] && Valid()
    {
      rows := map[];
    }

    /**
     * `createNote`: an authenticated caller, non-blank content and a profile
     * (fetched or created) are needed; the trimmed content is stored and one
     * `note_added` row is logged.
     */
    method CreateNote(leadId: string, content: string, userId: Option<string>, userEmail: Option<string>,
                      profiles: ProfileTable, newProfileRowId: string, raced: Option<UserProfile>,
                      newId: string, now: int, log: EventLog)
      returns (r: Result<NoteWithUser>)
      requires Valid() && profiles.Valid()
      modifies this, profiles, log
      ensures Valid() && profiles.Valid()
      ensures !Present(userId) ==>
                r == Failure(NotAuthenticated)
                && rows == old(rows) && profiles.rows == old(profiles.rows) && log.entries == old(log.entries)
      ensures Present(userId) && Trim(content) == "" ==>
                r == Failure(EmptyContent)
                && rows == old(rows) && profiles.rows == old(profiles.rows) && log.entries == old(log.entries)
      ensures Present(userId) && Trim(content) != "" && !Present(userEmail) ==>
                r == Failure(ProfileFailed)
                && rows == old(rows) && profiles.rows == old(profiles.rows) && log.entries == old(log.entries)
      ensures Present(userId) && Trim(content) != "" && Present(userEmail) && newId in old(rows) ==>
                r == Failure(NoteDuplicateKey) && rows == old(rows) && log.entries == old(log.entries)
      ensures Present(userId) && Trim(content) != "" && Present(userEmail) && newId !in old(rows) ==>
                && userId.value in profiles.rows
                && rows == old(rows)[newId := Note(newId, leadId, Trim(content), userId.value, now, None)]
                && r == Success(NoteWithUser(rows[newId], profiles.rows[userId.value].displayName,
                                             profiles.rows[userId.value].email))
                && log.entries == old(log.entries)
                     + [NoteAddedEvent(rows[newId], userEmail, profiles.rows[userId.value].displayName)]
    {
      if !Present(userId) {
        return Failure(NotAuthenticated);
      }
      var trimmedContent := Trim(content);
      if trimmedContent == "" {
        return Failure(EmptyContent);
      }
      r := AddNote(leadId, trimmedContent, userId.value, userEmail, profiles, newProfileRowId, raced, newId, now, log);
    }

    /** The rest of `createNote` once the caller and the content are checked: the profile, the insert, the event. */
    method AddNote(leadId: string, trimmedContent: string, userId: string, userEmail: Option<string>,
                   profiles: ProfileTable, newProfileRowId: string, raced: Option<UserProfile>,
                   newId: string, now: int, log: EventLog)
      returns (r: Result<NoteWithUser>)
      requires Valid() && profiles.Valid() && userId != ""
      modifies this, profiles, log
      ensures Valid() && profiles.Valid()
      ensures !Present(userEmail) ==>
                r == Failure(ProfileFailed)
                && rows == old(rows) && profiles.rows == old(profiles.rows) && log.entries == old(log.entries)
      ensures Present(userEmail) && newId in old(rows) ==>
                r == Failure(NoteDuplicateKey) && rows == old(rows) && log.entries == old(log.entries)
      ensures Present(userEmail) && newId !in old(rows) ==>
                && userId in profiles.rows
                && rows == old(rows)[newId := Note(newId, leadId, trimmedContent, userId, now, None)]
                && r == Success(NoteWithUser(rows[newId], profiles.rows[userId].displayName, profiles.rows[userId].email))
                && log.entries == old(log.entries) + [NoteAddedEvent(rows[newId], userEmail, profiles.rows[userId].displayName)]
    {
      var profileResult := FetchProfile(profiles, Some(userId), userEmail, newProfileRowId, raced);
      if profileResult.Failure? {
        return Failure(ProfileFailed);
      }
      var profile := profileResult.value;
      if newId in rows {
        return Failure(NoteDuplicateKey);
      }
      var note := Note(newId, leadId, trimmedContent, userId, now, None);
      rows := rows[newId := note];
      log.Append(NoteAddedEvent(note, userEmail, profile.displayName));
      r := Success(NoteWithUser(note, profile.displayName, profile.email));
    }

    /**
     * `updateNote`: an authenticated author may replace the content of a
     * note with non-blank text; the row is found by id alone, so a
     * soft-deleted note can still be edited.
     */
    method UpdateNote(noteId: string, content: string, userId: Option<string>, userEmail: Option<string>,
                      profiles: ProfileTable, newProfileRowId: string, raced: Option<UserProfile>, log: EventLog)
      returns (r: Result<NoteWithUser>)
      requires Valid() && profiles.Valid()
      modifies this, profiles, log
      ensures Valid() && profiles.Valid()
      ensures !Present(userId) ==>
                r == Failure(NotAuthenticated)
                && rows == old(rows) && profiles.rows == old(profiles.rows) && log.entries == old(log.entries)
      ensures Present(userId) && Trim(content) == "" ==>
                r == Failure(EmptyContent)
                && rows == old(rows) && profiles.rows == old(profiles.rows) && log.entries == old(log.entries)
      ensures Present(userId) && Trim(content) != "" && noteId !in old(rows) ==>
                r == Failure(NoteNotFound)
                && rows == old(rows) && profiles.rows == old(profiles.rows) && log.entries == old(log.entries)
      ensures Present(userId) && Trim(content) != "" && noteId in old(rows) && old(rows)[noteId].userId != userId.value ==>
                r == Failure(NotYourNoteToEdit)
                && rows == old(rows) && profiles.rows == old(profiles.rows) && log.entries == old(log.entries)
      ensures Present(userId) && Trim(content) != "" && noteId in old(rows) && old(rows)[noteId].userId == userId.value ==>
                && rows == old(rows)[noteId := old(rows)[noteId].(content := Trim(content))]
                && log.entries == old(log.entries) + [NoteUpdatedEvent(old(rows)[noteId], Trim(content), userEmail)]
      ensures Present(userId) && Trim(content) != "" && noteId in old(rows) && old(rows)[noteId].userId == userId.value
              && Present(userEmail) ==>
                && userId.value in profiles.rows
                && r == Success(NoteWithUser(rows[noteId], profiles.rows[userId.value].displayName,
                                             profiles.rows[userId.value].email))
      ensures Present(userId) && Trim(content) != "" && noteId in old(rows) && old(rows)[noteId].userId == userId.value
              && !Present(userEmail) ==>
                r == Success(NoteWithUser(rows[noteId], "Unknown User", "")) && profiles.rows == old(profiles.rows)
    {
      if !Present(userId) {
        return Failure(NotAuthenticated);
      }
      var trimmedContent := Trim(content);
      if trimmedContent == "" {
        return Failure(EmptyContent);
      }
      if noteId !in rows {
        return Failure(NoteNotFound);
      }
      if rows[noteId].userId != userId.value {
        return Failure(NotYourNoteToEdit);
      }
      r := ReviseNote(noteId, trimmedContent, userId.value, userEmail, profiles, newProfileRowId, raced, log);
    }

    /** The rest of `updateNote` once the author is checked: the write, the event, the profile for the reply. */
    method ReviseNote(noteId: string, trimmedContent: string, userId: string, userEmail: Option<string>,
                      profiles: ProfileTable, newProfileRowId: string, raced: Option<UserProfile>, log: EventLog)
      returns (r: Result<NoteWithUser>)
      requires Valid() && profiles.Valid() && userId != ""
      requires noteId in rows
      modifies this, profiles, log
      ensures Valid() && profiles.Valid()
      ensures rows == old(rows)[noteId := old(rows)[noteId].(content := trimmedContent)]
      ensures log.entries == old(log.entries) + [NoteUpdatedEvent(old(rows)[noteId], trimmedContent, userEmail)]
      ensures Present(userEmail) ==>
                && userId in profiles.rows
                && r == Success(NoteWithUser(rows[noteId], profiles.rows[userId].displayName, profiles.rows[userId].email))
      ensures !Present(userEmail) ==>
                r == Success(NoteWithUser(rows[noteId], "Unknown User", "")) && profiles.rows == old(profiles.rows)
    {
      var existingNote := rows[noteId];
      var updated := existingNote.(content := trimmedContent);
      rows := rows[noteId := updated];
      log.Append(NoteUpdatedEvent(existingNote, trimmedContent, userEmail));
      var profileResult := FetchProfile(profiles, Some(userId), userEmail, newProfileRowId, raced);
      if profileResult.Success? {
        r := Success(NoteWithUser(updated, profileResult.value.displayName, profileResult.value.email));
      } else {
        r := Success(NoteWithUser(updated, "Unknown User", ""));
      }
    }

    /**
     * `deleteNote`: an authenticated author stamps `deleted_at` (again, if
     * it was already set) and one `note_deleted` row is logged.
     */
    method DeleteNote(noteId: string, userId: Option<string>, userEmail: Option<string>, now: int, log: EventLog)
      returns (r: Result<()>)
      requires Valid()
      modifies this, log
      ensures Valid()
      ensures !Present(userId) ==> r == Failure(NotAuthenticated) && rows == old(rows) && log.entries == old(log.entries)
      ensures Present(userId) && noteId !in old(rows) ==>
                r == Failure(NoteNotFound) && rows == old(rows) && log.entries == old(log.entries)
      ensures Present(userId) && noteId in old(rows) && old(rows)[noteId].userId != userId.value ==>
                r == Failure(NotYourNoteToDelete) && rows == old(rows) && log.entries == old(log.entries)
      ensures Present(userId) && noteId in old(rows) && old(rows)[noteId].userId == userId.value ==>
                && r == Success(())
                && rows == old(rows)[noteId := old(rows)[noteId].(deletedAt := Some(now))]
                && log.entries == old(log.entries) + [NoteDeletedEvent(old(rows)[noteId], userEmail)]
    {
      if !Present(userId) {
        return Failure(NotAuthenticated);
      }
      if noteId !in rows {
        return Failure(NoteNotFound);
      }
      var existingNote := rows[noteId];
      if existingNote.userId != userId.value {
        return Failure(NotYourNoteToDelete);
      }
      rows := rows[noteId := existingNote.(deletedAt := Some(now))];
      log.Append(NoteDeletedEvent(existingNote, userEmail));
      r := Success(());
    }

    /**
     * The query of `getNotes`: the live notes of the lead, each once, newest
     * first (notes with equal timestamps in no particular order).
     */
    method SelectLiveNotes(leadId: string) returns (notes: seq<Note>)
      requires Valid()
      ensures |notes| == |LiveNoteIds(rows, leadId)|
      ensures forall i :: 0 <= i < |notes| ==> notes[i].id in LiveNoteIds(rows, leadId) && notes[i] == rows[notes[i].id]
      ensures forall k :: k in LiveNoteIds(rows, leadId) ==> exists i :: 0 <= i < |notes| && notes[i].id == k
      ensures NewestFirst(notes)
    {
      var live := LiveNoteIds(rows, leadId);
      var pending := live;
      notes := [];
      while pending != {}
        invariant SelectedSoFar(rows, live, pending, notes)
        decreases |pending|
      {
        NewestExists(rows, pending);
        var k :| k in pending && forall j :: j in pending ==> rows[j].createdAt <= rows[k].createdAt;
        SelectStep(rows, live, pending, notes, k);
        notes := notes + [rows[k]];
        pending := pending - {k};
      }
      assert live - pending == live;
    }

    /** `getNotes`: the live notes of a lead, newest first, each with its author's profile or the fallbacks. */
    method GetNotes(leadId: string, profiles: ProfileTable) returns (r: seq<NoteWithUser>)
      requires Valid() && profiles.Valid()
      ensures |r| == |LiveNoteIds(rows, leadId)|
      ensures forall i :: 0 <= i < |r| ==> r[i].note.id in LiveNoteIds(rows, leadId) && r[i].note == rows[r[i].note.id]
      ensures forall k :: k in LiveNoteIds(rows, leadId) ==> exists i :: 0 <= i < |r| && r[i].note.id == k
      ensures forall i, j :: 0 <= i < j < |r| ==> r[j].note.createdAt <= r[i].note.createdAt
      ensures forall i :: 0 <= i < |r| ==> r[i] == WithAuthor(r[i].note, profiles.rows)
    {
      var notes := SelectLiveNotes(leadId);
      if |notes| == 0 {
        return [];
      }
      var userIds := Authors(notes);
      var profilesMap := profiles.GetUserProfiles(userIds);
      r := WithAuthors(notes, profilesMap);
      AuthorsResolved(notes, profilesMap, profiles.rows);
      forall k | k in LiveNoteIds(rows, leadId)
        ensures exists i :: 0 <= i < |r| && r[i].note.id == k
      {
        var i :| 0 <= i < |notes| && notes[i].id == k;
        assert r[i].note.id == k;
      }
    }

    /** The query of `getNoteCountsForLeads`: one lead id per live note of the requested leads. */
    method SelectLiveLeadIds(leadIds: seq<string>) returns (data: seq<string>)
      ensures forall id :: multiset(data)[id] == if id in leadIds then |LiveNoteIds(rows, id)| else 0
      ensures |data| == |LiveOfLeadsIn(rows, leadIds, rows.Keys)|
    {
      var table := rows;
      var todo := table.Keys;
      data := [];
      CollectStart(table, leadIds);
      while todo != {}
        invariant CollectedSoFar(table, leadIds, todo, data)
        decreases |todo|
      {
        var k :| k in todo;
        var note := table[k];
        var found := if note.leadId in leadIds && note.deletedAt.None? then [note.leadId] else [];
        CollectStep(table, leadIds, todo, data, k, found);
        data := data + found;
        todo := todo - {k};
      }
      assert table.Keys - todo == table.Keys;
    }

    /**
     * `getNoteCountsForLeads`: no ids, no query; otherwise each requested
     * lead with live notes maps to how many it has, and the counts add up to
     * the number of rows the query returned.
     */
    method GetNoteCountsForLeads(leadIds: seq<string>) returns (counts: map<string, int>)
      ensures leadIds == [] ==> counts == map[]
      ensures forall id :: id in counts <==> id in leadIds && |LiveNoteIds(rows, id)| > 0
      ensures forall id :: id in counts ==> counts[id] == |LiveNoteIds(rows, id)|
      ensures SumValues(counts) == |LiveOfLeadsIn(rows, leadIds, rows.Keys)|
    {
      if |leadIds| == 0 {
        counts := map[];
        assert SumValues(counts) == 0;
        assert LiveOfLeadsIn(rows, leadIds, rows.Keys) == {};
        return;
      }
      var data := SelectLiveLeadIds(leadIds);
      counts := CountByLead(data);
      forall id
        ensures id in counts <==> id in leadIds && |LiveNoteIds(rows, id)| > 0
      {
        assert id in data <==> multiset(data)[id] > 0;
      }
    }
  }
}
