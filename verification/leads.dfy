/**
 * The lead server actions: creating a lead, the diff-then-write update, the
 * unguarded status write, soft delete, restore and mark-as-seen.  The
 * `leads` table is a map from id to row held by a `LeadTable` object; audit
 * rows go to the shared `EventLog`.  The clock, the generated id and the
 * signed-in user's email are parameters.  Money and probability columns are
 * whole numbers here, so `String(n)` is `IntToString(n)`.
 */
module Leads {
  import opened Wrappers
  import opened Text
  import opened LeadTypes
  import opened LeadEvents

  /** The attribution columns copied from the form or webhook body. */
  datatype Tracking = Tracking(
    utmSource: Option<string>, utmMedium: Option<string>, utmCampaign: Option<string>,
    utmContent: Option<string>, utmTerm: Option<string>, gclid: Option<string>,
    landingPage: Option<string>, referrer: Option<string>,
    ipAddress: Option<string>, userAgent: Option<string>)

  /** A row of the `leads` table. */
  datatype Lead = Lead(
    id: string,
    name: string,
    email: Option<string>,
    phone: Option<string>,
    firstName: Option<string>,
    lastName: Option<string>,
    source: Option<string>,
    status: Option<string>,
    expectedRevenue: Option<int>,
    probability: Option<int>,
    isNew: Option<bool>,
    customFields: Option<map<string, string>>,
    tracking: Tracking,
    deletedAt: Option<string>,
    lastSeen: Option<string>,
    playbookId: Option<string>)

  /** The columns an insert sets; status and `is_new` are fixed by the insert itself. */
  datatype LeadInsert = LeadInsert(
    name: string,
    email: Option<string>,
    phone: Option<string>,
    firstName: Option<string>,
    lastName: Option<string>,
    source: Option<string>,
    expectedRevenue: Option<int>,
    probability: Option<int>,
    customFields: map<string, string>,
    tracking: Tracking)

  /** The row an insert creates: status `new`, `is_new` set, not deleted, never seen, no playbook. */
  function InsertedRow(id: string, ins: LeadInsert): (l: Lead)
    ensures l.id == id && l.name == ins.name
    ensures l.status == Some("new") && l.isNew == Some(true)
    ensures l.customFields == Some(ins.customFields) && l.tracking == ins.tracking
    ensures l.deletedAt.None? && l.lastSeen.None? && l.playbookId.None?
  {
    Lead(id, ins.name, ins.email, ins.phone, ins.firstName, ins.lastName, ins.source,
         Some("new"), ins.expectedRevenue, ins.probability, Some(true),
         Some(ins.customFields), ins.tracking, None, None, None)
  }

  /** The `CreateLeadInput` form object; absent optional fields are `None`. */
  datatype CreateLeadInput = CreateLeadInput(
    name: string,
    email: Option<string>,
    phone: Option<string>,
    firstName: Option<string>,
    lastName: Option<string>,
    source: Option<string>,
    expectedRevenue: Option<int>,
    probability: Option<int>,
    customFields: Option<map<string, string>>,
    tracking: Tracking)

  /** What `createLead` inserts: the form's columns, with missing custom fields read as `{}`. */
  function CreateInsert(input: CreateLeadInput): (ins: LeadInsert)
    ensures ins.name == input.name && ins.source == input.source && ins.tracking == input.tracking
    ensures ins.customFields == (if input.customFields.Some? then input.customFields.value else map[])
  {
    LeadInsert(input.name, input.email, input.phone, input.firstName, input.lastName, input.source,
               input.expectedRevenue, input.probability, input.customFields.GetOr(map[]), input.tracking)
  }

  /**
   * The `created` event: the lead's name, and the form's source and UTM
   * source as metadata.  Both keys are always present here; a `None` value
   * is a key the stored JSON omits when the form left it `undefined`.
   */
  function CreatedEvent(id: string, input: CreateLeadInput, userEmail: Option<string>): (e: LeadEvent)
    ensures e.leadId == id && e.eventType == Created && e.newValue == Some(input.name)
    ensures e.userEmail == userEmail
  {
    LeadEvent(id, Created, None, None, Some(input.name), userEmail,
              map["source" := input.source, "utm_source" := input.tracking.utmSource])
  }

  /** The message an insert on a taken id fails with. */
  const DuplicateKey: string := "duplicate key value violates unique constraint \"leads_pkey\""

  // ----- the nine columns `updateLead` compares -----

  datatype LeadField =
    | NameField | EmailField | PhoneField | FirstNameField | LastNameField
    | StatusField | ExpectedRevenueField | ProbabilityField | IsNewField

  /** `fieldsToCheck`, in its declared order. */
  const FieldsToCheck: seq<LeadField> := [
    NameField, EmailField, PhoneField, FirstNameField, LastNameField,
    StatusField, ExpectedRevenueField, ProbabilityField, IsNewField
  ]

  /** The column name, stored in `lead_events.field_name`. */
  function FieldName(f: LeadField): string {
    match f
    case NameField => "name"
    case EmailField => "email"
    case PhoneField => "phone"
    case FirstNameField => "first_name"
    case LastNameField => "last_name"
    case StatusField => "status"
    case ExpectedRevenueField => "expected_revenue"
    case ProbabilityField => "probability"
    case IsNewField => "is_new"
  }

  /** Every compared column is listed once. */
  lemma FieldsToCheckListed()
    ensures forall f: LeadField :: f in FieldsToCheck
    ensures forall i, j :: 0 <= i < j < |FieldsToCheck| ==> FieldsToCheck[i] != FieldsToCheck[j]
  {
    forall f: LeadField ensures f in FieldsToCheck {
      match f
      case NameField => assert FieldsToCheck[0] == f;
      case EmailField => assert FieldsToCheck[1] == f;
      case PhoneField => assert FieldsToCheck[2] == f;
      case FirstNameField => assert FieldsToCheck[3] == f;
      case LastNameField => assert FieldsToCheck[4] == f;
      case StatusField => assert FieldsToCheck[5] == f;
      case ExpectedRevenueField => assert FieldsToCheck[6] == f;
      case ProbabilityField => assert FieldsToCheck[7] == f;
      case IsNewField => assert FieldsToCheck[8] == f;
    }
  }

  /** A column value as JavaScript sees it. */
  datatype Value = Text(s: string) | Number(n: int) | Flag(b: bool) | Null

  /** A value the column can hold: `name` is a non-null string, the rest are nullable. */
  predicate Fits(f: LeadField, v: Value) {
    match f
    case NameField => v.Text?
    case ExpectedRevenueField => v.Number? || v.Null?
    case ProbabilityField => v.Number? || v.Null?
    case IsNewField => v.Flag? || v.Null?
    case _ => v.Text? || v.Null?
  }

  function TextOrNull(o: Option<string>): (v: Value)
    ensures v.Text? || v.Null?
  {
    if o.Some? then Text(o.value) else Null
  }

  function NumberOrNull(o: Option<int>): (v: Value)
    ensures v.Number? || v.Null?
  {
    if o.Some? then Number(o.value) else Null
  }

  function FlagOrNull(o: Option<bool>): (v: Value)
    ensures v.Flag? || v.Null?
  {
    if o.Some? then Flag(o.value) else Null
  }

  /** `currentLead[field]`. */
  function Get(l: Lead, f: LeadField): (v: Value)
    ensures Fits(f, v)
  {
    match f
    case NameField => Text(l.name)
    case EmailField => TextOrNull(l.email)
    case PhoneField => TextOrNull(l.phone)
    case FirstNameField => TextOrNull(l.firstName)
    case LastNameField => TextOrNull(l.lastName)
    case StatusField => TextOrNull(l.status)
    case ExpectedRevenueField => NumberOrNull(l.expectedRevenue)
    case ProbabilityField => NumberOrNull(l.probability)
    case IsNewField => FlagOrNull(l.isNew)
  }

  function AsText(v: Value): Option<string> {
    if v.Text? then Some(v.s) else None
  }

  function AsNumber(v: Value): Option<int> {
    if v.Number? then Some(v.n) else None
  }

  function AsFlag(v: Value): Option<bool> {
    if v.Flag? then Some(v.b) else None
  }

  /** An update object: the columns to write and their new values. */
  type Updates = map<LeadField, Value>

  predicate UpdatesFit(u: Updates) {
    forall f :: f in u ==> Fits(f, u[f])
  }

  /** The row after `.update(updates)` on the nine compared columns. */
  function WithColumns(l: Lead, u: Updates): Lead
    requires UpdatesFit(u)
  {
    l.(name := if NameField in u then u[NameField].s else l.name,
       email := if EmailField in u then AsText(u[EmailField]) else l.email,
       phone := if PhoneField in u then AsText(u[PhoneField]) else l.phone,
       firstName := if FirstNameField in u then AsText(u[FirstNameField]) else l.firstName,
       lastName := if LastNameField in u then AsText(u[LastNameField]) else l.lastName,
       status := if StatusField in u then AsText(u[StatusField]) else l.status,
       expectedRevenue := if ExpectedRevenueField in u then AsNumber(u[ExpectedRevenueField]) else l.expectedRevenue,
       probability := if ProbabilityField in u then AsNumber(u[ProbabilityField]) else l.probability,
       isNew := if IsNewField in u then AsFlag(u[IsNewField]) else l.isNew)
  }

  /** The columns outside the nine compared ones, which an update of those leaves alone. */
  predicate SameOtherColumns(a: Lead, b: Lead) {
    && a.id == b.id && a.source == b.source && a.customFields == b.customFields
    && a.tracking == b.tracking && a.deletedAt == b.deletedAt
    && a.lastSeen == b.lastSeen && a.playbookId == b.playbookId
  }

  /** Writing a column gives it the written value; the other columns keep theirs. */
  lemma GetWithColumns(l: Lead, u: Updates, f: LeadField)
    requires UpdatesFit(u)
    ensures Get(WithColumns(l, u), f) == if f in u then u[f] else Get(l, f)
    ensures SameOtherColumns(WithColumns(l, u), l)
  {
  }

  /** The `UpdateLeadInput` object: `values` holds the defined fields among the nine. */
  datatype UpdateLeadInput = UpdateLeadInput(
    id: string,
    values: Updates,
    customFields: Option<map<string, string>>)

  /** One entry of `changedFields`. */
  datatype Change = Change(field: LeadField, oldValue: Value, newValue: Value)

  /** The changes found by scanning `fields` in order: defined in the input and different from the row. */
  function ChangesOver(fields: seq<LeadField>, current: Lead, values: Updates): (cs: seq<Change>)
    ensures |cs| <= |fields|
  {
    if fields == [] then []
    else
      var n := |fields| - 1;
      var f := fields[n];
      ChangesOver(fields[..n], current, values)
        + (if f in values && values[f] != Get(current, f) then [Change(f, Get(current, f), values[f])] else [])
  }

  /** `changedFields` after the scan over `fieldsToCheck`. */
  function Changes(current: Lead, input: UpdateLeadInput): seq<Change> {
    ChangesOver(FieldsToCheck, current, input.values)
  }

  /** `updates` built alongside the changes: each changed column mapped to its new value. */
  function UpdateMap(cs: seq<Change>): Updates {
    if cs == [] then map[]
    else
      var n := |cs| - 1;
      UpdateMap(cs[..n])[cs[n].field := cs[n].newValue]
  }

  /** One more step of the scan. */
  lemma ChangesOverSnoc(fields: seq<LeadField>, i: nat, current: Lead, values: Updates)
    requires i < |fields|
    ensures ChangesOver(fields[..i + 1], current, values)
            == ChangesOver(fields[..i], current, values)
               + (if fields[i] in values && values[fields[i]] != Get(current, fields[i])
                  then [Change(fields[i], Get(current, fields[i]), values[fields[i]])] else [])
  {
    assert fields[..i + 1][..i] == fields[..i];
  }

  lemma UpdateMapSnoc(cs: seq<Change>, c: Change)
    ensures UpdateMap(cs + [c]) == UpdateMap(cs)[c.field := c.newValue]
  {
    assert (cs + [c])[..|cs|] == cs;
  }

  /** The columns of the update object are the columns of the changes. */
  lemma {:induction false} UpdateMapKeys(cs: seq<Change>, f: LeadField)
    ensures f in UpdateMap(cs) <==> exists k :: 0 <= k < |cs| && cs[k].field == f
  {
    if cs != [] {
      var n := |cs| - 1;
      UpdateMapKeys(cs[..n], f);
      if f != cs[n].field && exists k :: 0 <= k < |cs| && cs[k].field == f {
        var k :| 0 <= k < |cs| && cs[k].field == f;
        assert cs[..n][k].field == f;
      }
    }
  }

  /** `Object.keys(updates).length === 0` exactly when nothing changed. */
  lemma UpdateMapEmpty(cs: seq<Change>)
    ensures |UpdateMap(cs)| == 0 <==> cs == []
  {
    if cs != [] {
      assert cs[|cs| - 1].field in UpdateMap(cs);
    }
  }

  /**
   * A column is in the update object exactly when the scan visits it and
   * the input defines it with a different value, and then it maps to the
   * input's value.
   */
  lemma {:induction false} ScanUpdates(fields: seq<LeadField>, current: Lead, values: Updates, f: LeadField)
    ensures var u := UpdateMap(ChangesOver(fields, current, values));
            && (f in u <==> f in fields && f in values && values[f] != Get(current, f))
            && (f in u ==> u[f] == values[f])
  {
    if fields != [] {
      var n := |fields| - 1;
      var last := fields[n];
      var prev := ChangesOver(fields[..n], current, values);
      var cs := ChangesOver(fields, current, values);
      ScanUpdates(fields[..n], current, values, f);
      assert fields == fields[..n] + [last];
      if last in values && values[last] != Get(current, last) {
        assert cs[..|cs| - 1] == prev;
      } else {
        assert cs == prev;
      }
    }
  }

  /** Each change records a visited column, its stored value and the different value the input gives it. */
  lemma {:induction false} ScanEntry(fields: seq<LeadField>, current: Lead, values: Updates, k: nat)
    requires k < |ChangesOver(fields, current, values)|
    ensures var c := ChangesOver(fields, current, values)[k];
            && c.field in fields && c.field in values
            && c.oldValue == Get(current, c.field) && c.newValue == values[c.field]
            && c.newValue != c.oldValue
  {
    var n := |fields| - 1;
    var prev := ChangesOver(fields[..n], current, values);
    if k < |prev| {
      ScanEntry(fields[..n], current, values, k);
      assert ChangesOver(fields, current, values)[k] == prev[k];
      assert prev[k].field in fields[..n];
    }
  }

  /** Scanning distinct columns changes each column at most once. */
  lemma {:induction false} ScanDistinct(fields: seq<LeadField>, current: Lead, values: Updates)
    requires forall i, j :: 0 <= i < j < |fields| ==> fields[i] != fields[j]
    ensures forall i, j :: 0 <= i < j < |ChangesOver(fields, current, values)| ==>
              ChangesOver(fields, current, values)[i].field != ChangesOver(fields, current, values)[j].field
  {
    if fields != [] {
      var n := |fields| - 1;
      var last := fields[n];
      assert last !in fields[..n];
      ScanDistinct(fields[..n], current, values);
      var prev := ChangesOver(fields[..n], current, values);
      var cs := ChangesOver(fields, current, values);
      assert forall i, j :: 0 <= i < j < |prev| ==> prev[i].field != prev[j].field;
      if |cs| > |prev| {
        forall i | 0 <= i < |prev| ensures prev[i].field != last {
          ScanEntry(fields[..n], current, values, i);
        }
        assert cs == prev + [Change(last, Get(current, last), values[last])];
      } else {
        assert cs == prev;
      }
    }
  }

  /** The update object of an input: the defined columns whose value differs, with the input's values. */
  lemma ChangesSpec(current: Lead, input: UpdateLeadInput, f: LeadField)
    ensures var u := UpdateMap(Changes(current, input));
            && (f in u <==> f in input.values && input.values[f] != Get(current, f))
            && (f in u ==> u[f] == input.values[f])
  {
    FieldsToCheckListed();
    ScanUpdates(FieldsToCheck, current, input.values, f);
  }

  /** The update object holds values the columns can take. */
  lemma ChangesFit(current: Lead, input: UpdateLeadInput)
    requires UpdatesFit(input.values)
    ensures UpdatesFit(UpdateMap(Changes(current, input)))
  {
    var u := UpdateMap(Changes(current, input));
    forall f | f in u ensures Fits(f, u[f]) {
      ChangesSpec(current, input, f);
    }
  }

  /** `{ ...(current ?? {}), ...extra }`: the input's keys override the stored ones. */
  function MergeCustomFields(current: Option<map<string, string>>, extra: map<string, string>): (m: map<string, string>)
    ensures forall k :: k in m <==> k in extra || (current.Some? && k in current.value)
    ensures forall k :: k in extra ==> m[k] == extra[k]
    ensures forall k :: k !in extra && current.Some? && k in current.value ==> m[k] == current.value[k]
  {
    current.GetOr(map[]) + extra
  }

  /** The row `updateLead` writes: the changed columns, then the merged custom fields when given. */
  function Revised(current: Lead, input: UpdateLeadInput): Lead
    requires UpdatesFit(input.values)
  {
    ChangesFit(current, input);
    var row := WithColumns(current, UpdateMap(Changes(current, input)));
    if input.customFields.Some? then
      row.(customFields := Some(MergeCustomFields(current.customFields, input.customFields.value)))
    else row
  }

  /**
   * Writing only the differing columns has the same effect as writing every
   * defined one: afterwards each of the nine columns holds the input's value
   * when the input defines it and its old value otherwise.
   */
  lemma RevisedColumns(current: Lead, input: UpdateLeadInput, f: LeadField)
    requires UpdatesFit(input.values)
    ensures Get(Revised(current, input), f) == if f in input.values then input.values[f] else Get(current, f)
  {
    ChangesSpec(current, input, f);
    ChangesFit(current, input);
    GetWithColumns(current, UpdateMap(Changes(current, input)), f);
  }

  /** The other columns keep their values, apart from the merged custom fields. */
  lemma RevisedOtherColumns(current: Lead, input: UpdateLeadInput)
    requires UpdatesFit(input.values)
    ensures var r := Revised(current, input);
            && SameOtherColumns(r, current.(customFields := r.customFields))
            && r.customFields == if input.customFields.Some? then
                                   Some(MergeCustomFields(current.customFields, input.customFields.value))
                                 else current.customFields
  {
    ChangesFit(current, input);
    GetWithColumns(current, UpdateMap(Changes(current, input)), NameField);
  }

  /** Sending the same input again finds nothing to change. */
  lemma UpdateIsIdempotent(current: Lead, input: UpdateLeadInput)
    requires UpdatesFit(input.values)
    ensures Changes(Revised(current, input), input) == []
  {
    var cs := Changes(Revised(current, input), input);
    if cs != [] {
      ScanEntry(FieldsToCheck, Revised(current, input), input.values, 0);
      RevisedColumns(current, input, cs[0].field);
    }
  }

  /** `String(value ?? '')`. */
  function Render(v: Value): string {
    match v
    case Text(s) => s
    case Number(n) => IntToString(n)
    case Flag(b) => if b then "true" else "false"
    case Null => ""
  }

  /** The audit row of one change: `status_changed` for the status column, `field_changed` otherwise. */
  function ChangeEvent(id: string, c: Change, userEmail: Option<string>): (e: LeadEvent)
    ensures e.leadId == id && e.userEmail == userEmail
    ensures e.eventType == StatusChanged <==> c.field == StatusField
    ensures e.eventType == StatusChanged || e.eventType == FieldChanged
    ensures e.fieldName == Some(FieldName(c.field))
    ensures e.oldValue == Some(Render(c.oldValue)) && e.newValue == Some(Render(c.newValue))
  {
    LeadEvent(id, if c.field == StatusField then StatusChanged else FieldChanged,
              Some(FieldName(c.field)), Some(Render(c.oldValue)), Some(Render(c.newValue)), userEmail, map[])
  }

  /** One audit row per change, in the order of the changes. */
  function ChangeEvents(id: string, cs: seq<Change>, userEmail: Option<string>): (es: seq<LeadEvent>)
    ensures |es| == |cs|
    ensures forall k :: 0 <= k < |cs| ==> es[k] == ChangeEvent(id, cs[k], userEmail)
  {
    if cs == [] then [] else ChangeEvents(id, cs[..|cs| - 1], userEmail) + [ChangeEvent(id, cs[|cs| - 1], userEmail)]
  }

  lemma ChangeEventsSnoc(id: string, cs: seq<Change>, j: nat, userEmail: Option<string>)
    requires j < |cs|
    ensures ChangeEvents(id, cs[..j + 1], userEmail) == ChangeEvents(id, cs[..j], userEmail) + [ChangeEvent(id, cs[j], userEmail)]
  {
    assert cs[..j + 1][..j] == cs[..j];
  }

  /**
   * An update logs a `status_changed` event exactly when the input's status
   * differs from the stored one, and then only one.
   */
  lemma StatusEventExactlyWhenStatusChanges(current: Lead, input: UpdateLeadInput, userEmail: Option<string>)
    ensures var es := ChangeEvents(input.id, Changes(current, input), userEmail);
            (exists k :: 0 <= k < |es| && es[k].eventType == StatusChanged)
            <==> StatusField in input.values && input.values[StatusField] != Get(current, StatusField)
    ensures forall i, j :: 0 <= i < j < |Changes(current, input)| ==>
              !(ChangeEvents(input.id, Changes(current, input), userEmail)[i].eventType == StatusChanged
                && ChangeEvents(input.id, Changes(current, input), userEmail)[j].eventType == StatusChanged)
  {
    var cs := Changes(current, input);
    var es := ChangeEvents(input.id, cs, userEmail);
    ChangesSpec(current, input, StatusField);
    UpdateMapKeys(cs, StatusField);
    FieldsToCheckListed();
    ScanDistinct(FieldsToCheck, current, input.values);
    forall k | 0 <= k < |es| && es[k].eventType == StatusChanged
      ensures cs[k].field == StatusField
      ensures StatusField in input.values && input.values[StatusField] != Get(current, StatusField)
    {
      assert es[k] == ChangeEvent(input.id, cs[k], userEmail);
      ScanEntry(FieldsToCheck, current, input.values, k);
    }
  }

  /** A row's `deleted_at` stamped with `now` unless it is already set; other rows untouched. */
  function SoftDeleted(rows: map<string, Lead>, id: string, now: string): (r: map<string, Lead>)
    ensures r.Keys == rows.Keys
    ensures forall k :: k in rows && k != id ==> r[k] == rows[k]
    ensures id in rows ==> r[id].deletedAt.Some?
    ensures id in rows && rows[id].deletedAt.Some? ==> r[id] == rows[id]
  {
    if id in rows && rows[id].deletedAt.None? then rows[id := rows[id].(deletedAt := Some(now))] else rows
  }

  /** A second delete keeps the first timestamp. */
  lemma SoftDeleteKeepsFirstStamp(rows: map<string, Lead>, id: string, first: string, second: string)
    ensures SoftDeleted(SoftDeleted(rows, id, first), id, second) == SoftDeleted(rows, id, first)
  {
  }

  /** `deleted_at` cleared on the row, if it exists. */
  function RestoredRows(rows: map<string, Lead>, id: string): (r: map<string, Lead>)
    ensures r.Keys == rows.Keys
    ensures forall k :: k in rows && k != id ==> r[k] == rows[k]
    ensures id in rows ==> r[id] == rows[id].(deletedAt := None)
  {
    if id in rows then rows[id := rows[id].(deletedAt := None)] else rows
  }

  /** Restoring a lead that was live before a delete gives back the table as it was. */
  lemma RestoreUndoesDelete(rows: map<string, Lead>, id: string, now: string)
    requires id in rows ==> rows[id].deletedAt.None?
    ensures RestoredRows(SoftDeleted(rows, id, now), id) == rows
  {
    if id in rows {
      assert RestoredRows(SoftDeleted(rows, id, now), id)[id] == rows[id];
    }
  }

  /** `is_new` cleared and `last_seen` stamped on the row, if it exists. */
  function SeenRows(rows: map<string, Lead>, id: string, now: string): (r: map<string, Lead>)
    ensures r.Keys == rows.Keys
    ensures forall k :: k in rows && k != id ==> r[k] == rows[k]
    ensures id in rows ==> r[id] == rows[id].(isNew := Some(false), lastSeen := Some(now))
  {
    if id in rows then rows[id := rows[id].(isNew := Some(false), lastSeen := Some(now))] else rows
  }

  /** The status write: any status at all, `is_new` true only for the literal `new`. */
  function StatusWritten(l: Lead, newStatus: LeadStatus): (r: Lead)
    ensures r.status == Some(StatusName(newStatus))
    ensures r.isNew == Some(StatusName(newStatus) == "new")
    ensures SameOtherColumns(r, l) && r.name == l.name
    ensures r.email == l.email && r.phone == l.phone && r.firstName == l.firstName && r.lastName == l.lastName
    ensures r.expectedRevenue == l.expectedRevenue && r.probability == l.probability
  {
    l.(status := Some(StatusName(newStatus)), isNew := Some(StatusName(newStatus) == "new"))
  }

  /** `newStatus` is typed as one of the fourteen statuses, none named `new`, so the write always clears `is_new`. */
  lemma StatusWriteClearsIsNew(l: Lead, newStatus: LeadStatus)
    ensures StatusWritten(l, newStatus).isNew == Some(false)
  {
    ParseStatusName();
    assert ParseStatus(StatusName(newStatus)) == Some(newStatus);
    assert ParseStatus("new").None?;
  }

  /** The `leads` table. */
  class LeadTable {
    var rows: map<string, Lead>

    constructor ()
      ensures rows == map[]
    {
      rows := map[];
    }

    /** The insert shared by `createLead` and the webhook; a taken id fails and changes nothing. */
    method Insert(id: string, ins: LeadInsert) returns (r: Result<Lead>)
      modifies this
      ensures id in old(rows) ==> r == Failure(DuplicateKey) && rows == old(rows)
      ensures id !in old(rows) ==> r == Success(InsertedRow(id, ins)) && rows == old(rows)[id := InsertedRow(id, ins)]
    {
      if id in rows {
        return Failure(DuplicateKey);
      }
      var row := InsertedRow(id, ins);
      rows := rows[id := row];
      r := Success(row);
    }

    /** `createLead`: insert with status `new`, then one `created` event. */
    method CreateLead(input: CreateLeadInput, id: string, userEmail: Option<string>, log: EventLog)
      returns (r: Result<Lead>)
      modifies this, log
      ensures id in old(rows) ==> r.Failure? && rows == old(rows) && log.entries == old(log.entries)
      ensures id !in old(rows) ==>
                && r == Success(InsertedRow(id, CreateInsert(input)))
                && rows == old(rows)[id := r.value]
                && log.entries == old(log.entries) + [CreatedEvent(id, input, userEmail)]
    {
      r := Insert(id, CreateInsert(input));
      if r.Failure? {
        return;
      }
      log.Append(CreatedEvent(id, input, userEmail));
    }

    /**
     * `updateLead`: a missing lead is an error; otherwise compare the nine
     * columns, merge custom fields when given, return the stored row
     * untouched when there is nothing to write, and otherwise write and log
     * one event per changed column.
     */
    method UpdateLead(input: UpdateLeadInput, userEmail: Option<string>, log: EventLog)
      returns (r: Result<Lead>)
      requires UpdatesFit(input.values)
      modifies this, log
      ensures input.id !in old(rows) ==>
                r == Failure("Lead not found") && rows == old(rows) && log.entries == old(log.entries)
      ensures input.id in old(rows) && Changes(old(rows)[input.id], input) == [] && input.customFields.None? ==>
                r == Success(old(rows)[input.id]) && rows == old(rows) && log.entries == old(log.entries)
      ensures input.id in old(rows) && (Changes(old(rows)[input.id], input) != [] || input.customFields.Some?) ==>
                && rows == old(rows)[input.id := Revised(old(rows)[input.id], input)]
                && r == Success(rows[input.id])
                && log.entries == old(log.entries) + ChangeEvents(input.id, Changes(old(rows)[input.id], input), userEmail)
    {
      if input.id !in rows {
        return Failure("Lead not found");
      }
      var current := rows[input.id];
      var updates, changed := ScanChanges(current, input);
      ChangesFit(current, input);
      UpdateMapEmpty(changed);
      if |updates| == 0 && input.customFields.None? {
        return Success(current);
      }
      var row := WithColumns(current, updates);
      if input.customFields.Some? {
        row := row.(customFields := Some(MergeCustomFields(current.customFields, input.customFields.value)));
      }
      rows := rows[input.id := row];
      LogChanges(input.id, changed, userEmail, log);
      r := Success(row);
    }

    /** The first loop of `updateLead`: collect `updates` and `changedFields` over `fieldsToCheck`. */
    static method ScanChanges(current: Lead, input: UpdateLeadInput) returns (updates: Updates, changed: seq<Change>)
      ensures changed == Changes(current, input) && updates == UpdateMap(changed)
    {
      updates := map[];
      changed := [];
      for i := 0 to |FieldsToCheck|
        invariant changed == ChangesOver(FieldsToCheck[..i], current, input.values)
        invariant updates == UpdateMap(changed)
      {
        var field := FieldsToCheck[i];
        ChangesOverSnoc(FieldsToCheck, i, current, input.values);
        if field in input.values && input.values[field] != Get(current, field) {
          var change := Change(field, Get(current, field), input.values[field]);
          UpdateMapSnoc(changed, change);
          updates := updates[field := input.values[field]];
          changed := changed + [change];
        }
      }
      assert FieldsToCheck[..|FieldsToCheck|] == FieldsToCheck;
    }

    /** The second loop of `updateLead`: one audit row per change, in order. */
    static method LogChanges(id: string, changed: seq<Change>, userEmail: Option<string>, log: EventLog)
      modifies log
      ensures log.entries == old(log.entries) + ChangeEvents(id, changed, userEmail)
    {
      for j := 0 to |changed|
        invariant log.entries == old(log.entries) + ChangeEvents(id, changed[..j], userEmail)
      {
        ChangeEventsSnoc(id, changed, j, userEmail);
        log.Append(ChangeEvent(id, changed[j], userEmail));
      }
      assert changed[..|changed|] == changed;
    }

    /** `updateLeadStatus`: no check against the status flow; one `status_changed` event with the old and new values. */
    method UpdateLeadStatus(id: string, newStatus: LeadStatus, userEmail: Option<string>, log: EventLog)
      returns (r: Result<()>)
      modifies this, log
      ensures id !in old(rows) ==>
                r == Failure("Lead not found") && rows == old(rows) && log.entries == old(log.entries)
      ensures id in old(rows) ==>
                && r == Success(())
                && rows == old(rows)[id := StatusWritten(old(rows)[id], newStatus)]
                && log.entries == old(log.entries) + [LeadEvent(id, StatusChanged, Some("status"),
                     old(rows)[id].status, Some(StatusName(newStatus)), userEmail, map[])]
    {
      if id !in rows {
        return Failure("Lead not found");
      }
      var oldStatus := rows[id].status;
      rows := rows[id := StatusWritten(rows[id], newStatus)];
      log.Append(LeadEvent(id, StatusChanged, Some("status"), oldStatus, Some(StatusName(newStatus)), userEmail, map[]));
      r := Success(());
    }

    /**
     * `softDeleteLead`: stamps only a live row, and reports success whether
     * or not a row changed.  The `deleted` event is inserted unchecked; its
     * `lead_id` must name an existing lead (`lead_events_lead_id_fkey`), so
     * for an unknown id the insert fails silently and nothing is logged.
     */
    method SoftDeleteLead(id: string, now: string, userEmail: Option<string>, log: EventLog) returns (r: Result<()>)
      modifies this, log
      ensures r == Success(())
      ensures rows == SoftDeleted(old(rows), id, now)
      ensures id in old(rows) ==> log.entries == old(log.entries) + [PlainEvent(id, Deleted, userEmail)]
      ensures id !in old(rows) ==> log.entries == old(log.entries)
    {
      if id in rows && rows[id].deletedAt.None? {
        rows := rows[id := rows[id].(deletedAt := Some(now))];
      }
      if id in rows {
        log.Append(PlainEvent(id, Deleted, userEmail));
      }
      r := Success(());
    }

    /**
     * `restoreLead`: clears `deleted_at` and reports success.  As with the
     * delete, the unchecked `restored` event is rejected by the foreign key
     * when no lead has the id, so nothing is logged then.
     */
    method RestoreLead(id: string, userEmail: Option<string>, log: EventLog) returns (r: Result<()>)
      modifies this, log
      ensures r == Success(())
      ensures rows == RestoredRows(old(rows), id)
      ensures id in old(rows) ==> log.entries == old(log.entries) + [PlainEvent(id, Restored, userEmail)]
      ensures id !in old(rows) ==> log.entries == old(log.entries)
    {
      if id in rows {
        rows := rows[id := rows[id].(deletedAt := None)];
        log.Append(PlainEvent(id, Restored, userEmail));
      }
      r := Success(());
    }

    /** `markLeadAsSeen`: clears `is_new` and stamps `last_seen`; no event. */
    method MarkLeadAsSeen(id: string, now: string)
      modifies this
      ensures rows == SeenRows(old(rows), id, now)
    {
      if id in rows {
        rows := rows[id := rows[id].(isNew := Some(false), lastSeen := Some(now))];
      }
    }
  }
}
