/**
 * Playbooks: the `playbooks` table with create, the diff-then-write update,
 * soft delete and the two lookups, plus assigning a playbook to a lead and
 * the lead's playbook with its fallback to the default one.
 */
module Playbooks {
  import opened Wrappers
  import opened Leads

  /** A row of the `playbooks` table. */
  datatype Playbook = Playbook(
    id: string,
    name: string,
    content: string,
    description: Option<string>,
    category: Option<string>,
    isDefault: bool,
    createdBy: string,
    deletedAt: Option<string>)

  datatype CreatePlaybookInput = CreatePlaybookInput(
    name: string, content: Option<string>, description: Option<string>, category: Option<string>,
    isDefault: Option<bool>)

  /** The optional fields of an update request; `None` is a field left out. */
  datatype UpdatePlaybookInput = UpdatePlaybookInput(
    id: string, name: Option<string>, content: Option<string>, description: Option<string>,
    category: Option<string>, isDefault: Option<bool>)

  /** The `updates` object: `Some` for each column that is written. */
  datatype PlaybookChanges = PlaybookChanges(
    name: Option<string>, content: Option<string>, description: Option<string>,
    category: Option<string>, isDefault: Option<bool>)

  /** The user recorded as author when nobody is signed in. */
  const AnonymousUser: string := "00000000-0000-0000-0000-000000000000"
  const PlaybookNotFound: string := "Playbook not found"
  const PlaybookDuplicateKey: string := "duplicate key value violates unique constraint \"playbooks_pkey\""

  /** The row `createPlaybook` inserts: empty content and not default unless given. */
  function NewPlaybook(id: string, input: CreatePlaybookInput, authUserId: Option<string>): (p: Playbook)
    ensures p.id == id && p.name == input.name && p.deletedAt.None?
    ensures p.content == (if input.content.Some? then input.content.value else "")
    ensures p.isDefault <==> input.isDefault == Some(true)
    ensures p.description == input.description && p.category == input.category
    ensures p.createdBy == (if authUserId.Some? then authUserId.value else AnonymousUser)
  {
    Playbook(id, input.name, input.content.GetOr(""), input.description, input.category,
             input.isDefault.GetOr(false), authUserId.GetOr(AnonymousUser), None)
  }

  // ----- the update diff -----

  /** Whether a requested value is written: it is given and differs from the stored one. */
  function Changed<T(==)>(given: Option<T>, stored: T): (c: Option<T>)
    ensures c.Some? <==> given.Some? && given.value != stored
    ensures c.Some? ==> c == given
  {
    if given.Some? && given.value != stored then given else None
  }

  /** The same for a nullable column, where the stored value may be `null`. */
  function ChangedNullable(given: Option<string>, stored: Option<string>): (c: Option<string>)
    ensures c.Some? <==> given.Some? && given != stored
    ensures c.Some? ==> c == given
  {
    if given.Some? && given != stored then given else None
  }

  /** The columns an update request would write to the current row. */
  function Diff(current: Playbook, input: UpdatePlaybookInput): PlaybookChanges {
    PlaybookChanges(
      Changed(input.name, current.name),
      Changed(input.content, current.content),
      ChangedNullable(input.description, current.description),
      ChangedNullable(input.category, current.category),
      Changed(input.isDefault, current.isDefault))
  }

  predicate NoChanges(c: PlaybookChanges) {
    c.name.None? && c.content.None? && c.description.None? && c.category.None? && c.isDefault.None?
  }

  /** The row after writing the changed columns. */
  function Applied(current: Playbook, c: PlaybookChanges): Playbook {
    current.(
      name := c.name.GetOr(current.name),
      content := c.content.GetOr(current.content),
      description := if c.description.Some? then c.description else current.description,
      category := if c.category.Some? then c.category else current.category,
      isDefault := c.isDefault.GetOr(current.isDefault))
  }

  /** After the write every given field holds the requested value and every other column is kept. */
  lemma UpdateTakesRequest(current: Playbook, input: UpdatePlaybookInput)
    ensures var p := Applied(current, Diff(current, input));
            && p.name == input.name.GetOr(current.name)
            && p.content == input.content.GetOr(current.content)
            && p.description == (if input.description.Some? then input.description else current.description)
            && p.category == (if input.category.Some? then input.category else current.category)
            && p.isDefault == input.isDefault.GetOr(current.isDefault)
            && p.id == current.id && p.createdBy == current.createdBy && p.deletedAt == current.deletedAt
  {
  }

  /** The update skips the write exactly when writing would leave the row as it is. */
  lemma NoChangesExactlyWhenSame(current: Playbook, input: UpdatePlaybookInput)
    ensures NoChanges(Diff(current, input)) <==> Applied(current, Diff(current, input)) == current
  {
  }

  /** Sending the same request again finds nothing to change. */
  lemma UpdatePlaybookIdempotent(current: Playbook, input: UpdatePlaybookInput)
    ensures NoChanges(Diff(Applied(current, Diff(current, input)), input))
  {
  }

  /** `.single()` over the live default playbooks: the row when there is exactly one. */
  function TheOnly(rows: map<string, Playbook>, ids: set<string>): (r: Option<Playbook>)
    requires ids <= rows.Keys
    ensures r.Some? <==> |ids| == 1
    ensures r.Some? ==> exists k :: k in ids && r.value == rows[k]
  {
    if |ids| == 1 then
      SingletonHasOne(ids);
      var k :| k in ids;
      Some(rows[k])
    else None
  }

  lemma SingletonHasOne(ids: set<string>)
    requires |ids| == 1
    ensures exists k :: ids == {k}
    ensures forall a, b :: a in ids && b in ids ==> a == b
  {
    var k :| k in ids;
    assert |ids - {k}| == 0;
    assert ids == {k};
  }

  /** The ids of the live playbooks marked default. */
  function DefaultIds(rows: map<string, Playbook>): (ids: set<string>)
    ensures ids <= rows.Keys
  {
    set k | k in rows && rows[k].isDefault && rows[k].deletedAt.None?
  }

  class PlaybookTable {
    var rows: map<string, Playbook>

    /** Every playbook is filed under its own id. */
    ghost predicate Valid()
      reads this
    {
      forall k :: k in rows ==> rows[k].id == k
    }

    constructor ()
      ensures rows == map[] && Valid()
    {
      rows := map[];
    }

    /** `createPlaybook`: a taken id fails and changes nothing. */
    method CreatePlaybook(input: CreatePlaybookInput, authUserId: Option<string>, newId: string)
      returns (r: Result<Playbook>)
      requires Valid()
      modifies this
      ensures Valid()
      ensures newId in old(rows) ==> r == Failure(PlaybookDuplicateKey) && rows == old(rows)
      ensures newId !in old(rows) ==>
                r == Success(NewPlaybook(newId, input, authUserId)) && rows == old(rows)[newId := r.value]
    {
      if newId in rows {
        return Failure(PlaybookDuplicateKey);
      }
      var userId := if authUserId.Some? then authUserId.value else AnonymousUser;
      var playbook := Playbook(newId, input.name, if input.content.Some? then input.content.value else "",
                               input.description, input.category,
                               if input.isDefault.Some? then input.isDefault.value else false, userId, None);
      rows := rows[newId := playbook];
      r := Success(playbook);
    }

    /** `getPlaybook`: the row, unless it is missing or soft-deleted. */
    function GetPlaybook(id: string): (r: Option<Playbook>)
      reads this
      ensures r.Some? <==> id in rows && rows[id].deletedAt.None?
      ensures r.Some? ==> r.value == rows[id]
    {
      if id in rows && rows[id].deletedAt.None? then Some(rows[id]) else None
    }

    /** `getDefaultPlaybook`: the live default playbook, or nothing when there is none or more than one. */
    function GetDefaultPlaybook(): (r: Option<Playbook>)
      reads this
      ensures r.Some? <==> |DefaultIds(rows)| == 1
      ensures r.Some? ==> r.value.isDefault && r.value.deletedAt.None? && r.value in rows.Values
    {
      TheOnly(rows, DefaultIds(rows))
    }

    /**
     * `updatePlaybook`: a missing or deleted playbook is an error; otherwise
     * the changed columns are collected one `if` at a time and written only
     * when there is at least one.
     */
    method UpdatePlaybook(input: UpdatePlaybookInput) returns (r: Result<Playbook>)
      requires Valid()
      modifies this
      ensures Valid()
      ensures input.id !in old(rows) || old(rows)[input.id].deletedAt.Some? ==>
                r == Failure(PlaybookNotFound) && rows == old(rows)
      ensures input.id in old(rows) && old(rows)[input.id].deletedAt.None? ==>
                var current := old(rows)[input.id];
                && (NoChanges(Diff(current, input)) ==> r == Success(current) && rows == old(rows))
                && (!NoChanges(Diff(current, input)) ==>
                      rows == old(rows)[input.id := Applied(current, Diff(current, input))]
                      && r == Success(rows[input.id]))
    {
      var found := GetPlaybook(input.id);
      if found.None? {
        return Failure(PlaybookNotFound);
      }
      var current := found.value;
      var updates := CollectChanges(current, input);
      if NoChanges(updates) {
        return Success(current);
      }
      var written := Applied(current, updates);
      rows := rows[input.id := written];
      r := Success(written);
    }

    /** The chain of `if`s of `updatePlaybook`: each given field that differs goes into `updates`. */
    static method CollectChanges(current: Playbook, input: UpdatePlaybookInput) returns (updates: PlaybookChanges)
      ensures updates == Diff(current, input)
    {
      updates := PlaybookChanges(None, None, None, None, None);
      if input.name.Some? && input.name.value != current.name {
        updates := updates.(name := input.name);
      }
      if input.content.Some? && input.content.value != current.content {
        updates := updates.(content := input.content);
      }
      if input.description.Some? && input.description != current.description {
        updates := updates.(description := input.description);
      }
      if input.category.Some? && input.category != current.category {
        updates := updates.(category := input.category);
      }
      if input.isDefault.Some? && input.isDefault.value != current.isDefault {
        updates := updates.(isDefault := input.isDefault);
      }
    }

    /** `deletePlaybook`: stamps `deleted_at` on a live row only; succeeds whether or not a row matched. */
    method DeletePlaybook(id: string, now: string) returns (r: Result<()>)
      requires Valid()
      modifies this
      ensures Valid()
      ensures r == Success(())
      ensures id in old(rows) && old(rows)[id].deletedAt.None? ==> rows == old(rows)[id := old(rows)[id].(deletedAt := Some(now))]
      ensures id !in old(rows) || old(rows)[id].deletedAt.Some? ==> rows == old(rows)
      ensures GetPlaybook(id).None?
    {
      if id in rows && rows[id].deletedAt.None? {
        rows := rows[id := rows[id].(deletedAt := Some(now))];
      }
      r := Success(());
    }

    /**
     * `getPlaybookForLead`: the lead's assigned playbook when it has a
     * non-empty `playbook_id` naming a live playbook, else the default one.
     */
    function GetPlaybookForLead(leads: LeadTable, leadId: string): (r: Option<Playbook>)
      reads this, leads
      ensures AssignedId(leads.rows, leadId).Some? && GetPlaybook(AssignedId(leads.rows, leadId).value).Some? ==>
                r == GetPlaybook(AssignedId(leads.rows, leadId).value)
      ensures AssignedId(leads.rows, leadId).None? || GetPlaybook(AssignedId(leads.rows, leadId).value).None? ==>
                r == GetDefaultPlaybook()
      ensures r.Some? ==> r.value.deletedAt.None?
    {
      var pid := AssignedId(leads.rows, leadId);
      if pid.Some? && GetPlaybook(pid.value).Some? then GetPlaybook(pid.value)
      else GetDefaultPlaybook()
    }
  }

  /** `lead?.playbook_id` when the lead exists and the id is truthy. */
  function AssignedId(leads: map<string, Lead>, leadId: string): (r: Option<string>)
    ensures r.Some? <==> leadId in leads && leads[leadId].playbookId.Some? && leads[leadId].playbookId.value != ""
    ensures r.Some? ==> r == leads[leadId].playbookId
  {
    if leadId in leads && leads[leadId].playbookId.Some? && leads[leadId].playbookId.value != "" then
      leads[leadId].playbookId
    else None
  }

  /** `setLeadPlaybook`: the lead's `playbook_id` becomes the given value, `null` included; no row, no change. */
  method SetLeadPlaybook(leads: LeadTable, leadId: string, playbookId: Option<string>) returns (r: Result<()>)
    modifies leads
    ensures r == Success(())
    ensures leadId in old(leads.rows) ==> leads.rows == old(leads.rows)[leadId := old(leads.rows)[leadId].(playbookId := playbookId)]
    ensures leadId !in old(leads.rows) ==> leads.rows == old(leads.rows)
  {
    if leadId in leads.rows {
      leads.rows := leads.rows[leadId := leads.rows[leadId].(playbookId := playbookId)];
    }
    r := Success(());
  }

  /** A lead whose `playbook_id` names a live playbook gets that playbook. */
  lemma AssignedPlaybookWins(table: PlaybookTable, leads: LeadTable, leadId: string, playbookId: string)
    requires leadId in leads.rows && leads.rows[leadId].playbookId == Some(playbookId) && playbookId != ""
    requires playbookId in table.rows && table.rows[playbookId].deletedAt.None?
    ensures table.GetPlaybookForLead(leads, leadId) == Some(table.rows[playbookId])
  {
    assert AssignedId(leads.rows, leadId) == Some(playbookId);
  }

  /** A lead with no assignment, or whose playbook was deleted, gets the default playbook. */
  lemma UnassignedFallsBack(table: PlaybookTable, leads: LeadTable, leadId: string)
    requires leadId !in leads.rows || leads.rows[leadId].playbookId.None?
             || leads.rows[leadId].playbookId.value !in table.rows
             || table.rows[leads.rows[leadId].playbookId.value].deletedAt.Some?
    ensures table.GetPlaybookForLead(leads, leadId) == table.GetDefaultPlaybook()
  {
  }
}
