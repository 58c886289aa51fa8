# money-key-crm-v2 core, modelled in Dafny

This project models the logic core of a small CRM. The CRM keeps sales
leads, and their notes, playbooks and user profiles, in a hosted database.
It synchronises lead statuses from Zoho, and shows dashboard figures.
The model covers five parts:

- **The lead pipeline classifier** (`lead_types.dfy`, `status_utils.dfy`,
  `status_flow.dfy`). It holds the fourteen lead statuses, the six pipeline
  stages that partition them, and the nine event types. It also holds the
  status lookups that fall back to `not_contacted` / `follow_up`, and the
  "next status" quick actions with the hidden statuses filtered out.
- **The Zoho sync scripts** (`phone_normalize.dfy`, `reconcile.dfy`,
  `status_sync.dfy`). These are Israeli phone normalisation and its
  variants, and the Hebrew-to-English status map. The tiered matcher tries
  phone, then email, then name, and claims each datastore lead at most once.
  The reconciliation report has balanced counters. The update filter and
  the apply counters complete the part.
- **The table operations** (`leads.dfy`, `lead_events.dfy`, `notes.dfy`,
  `playbooks.dfy`, `user_profile.dfy`). Each table is a class holding a
  `map` from id to row, and its methods change the map in place. The
  `lead_events` table is an `EventLog` class with an append-only `seq`,
  shared by reference.
- **The dashboard reducers** (`kpis.dfy`). These are the per-status
  counters and their zero-guarded rates, the pipeline sums, the four-stage
  funnel, and the per-source UTM grouping with its sort and top-5 cut.
- **Small helpers** (`utils.dfy`, `leads_realtime.dfy`, `webhook.dfy`).
  These are `truncate`, `getInitials`, the relative-time buckets and the
  `-` fallbacks. They also cover the realtime list reducer, and the lead
  webhook's check order, UTM warnings and insert defaults.

`cross_file.dfy` ties the parts together. `wrappers.dfy` (`Option`,
`Result`) and `text.dfy` (ASCII case mapping, whitespace trimming,
splitting) are shared helpers.

Loops in the source are methods with loop invariants, proved equal to a
specification function. Examples are the stage-map construction,
`extract_phone_variants`, the matcher scans, the report loop, the update
filter, the apply counters, the KPI `forEach` loops and the note counts.
Properties of the specification functions are proved as lemmas.

The clock, generated row ids, the signed-in user, environment variables
and request headers are parameters. Two functions are oracles given as
parameters: the fuzzy name ratio (`SequenceMatcher`) and the per-update
database write (`apply_single_update`). A database insert whose id is
already taken takes the insert's error path and changes nothing.

**Conversion counts the legacy status names.** The dashboard counts only
the names `new`, `contacted`, `customer` and `lost` (actions/kpis.ts:36-50).
For leads that all hold canonical statuses the conversion rate is
therefore 0%, as `NewLeadStatus.CanonicalStatusesConvertNothing` proves.
`createLead` writes the status `new`, which is not one of the fourteen
statuses. `NewLeadStatus.InsertedLeadClassification` shows where such a
lead then lands.

## Model

| member | source | states |
|---|---|---|
| LeadTypes.ParseStatus | types/leads.ts:13-35 | a string parses to the status it names, and to nothing when no status has that name |
| LeadTypes.StatusesListedOnce | types/leads.ts:13-34 | the status list has exactly 14 entries, each status appears in it, and no entry repeats |
| LeadTypes.StatusListComplete | types/leads.ts:13-34 | the 14 listed statuses have pairwise different names |
| LeadTypes.StatusNameInjective | types/leads.ts:13-34 | a status's name parses back to that status, and two statuses with the same name are the same |
| LeadTypes.ParseStatusName | types/leads.ts:13-34 | parsing inverts naming for every status |
| LeadTypes.StagesPartitionStatuses | types/leads.ts:38-45 | a status is in a stage's list exactly when its configuration names that stage, and every stage is listed |
| LeadTypes.StagePosition | types/leads.ts:38-45 | every stage has a position in the stage order |
| LeadTypes.PositionInStage | types/leads.ts:62-188 | every status occurs in the list of the stage its configuration names |
| LeadTypes.ListedStatusInStage | types/leads.ts:38-45 | each status listed under a stage has that stage as its configured stage |
| LeadTypes.StagesConcatenateToStatusList | types/leads.ts:13-45 | the stage lists, joined in the order follow_up, warm, hot, signed, lost, future, give the status list in its declared order |
| LeadTypes.EventTypesListedOnce | types/leads.ts:48-58 | there are exactly nine event types, all listed, none repeated |
| LeadTypes.EventTypeNamesDistinct | types/leads.ts:191-206 | different event types have different names and different icons |
| LeadTypes.EventTypesComplete | types/leads.ts:191-206 | every listed event type has its own configuration entry, with pairwise different names and icons |
| LeadTypes.StatusKey | lib/status-utils.ts:20 | the lookup key is never empty, and it is the stored status whenever that is non-empty |
| StatusUtils.BuildStatusToStageMap | lib/status-utils.ts:9-14 | the nested loop yields a map whose keys are exactly the 14 status names, each mapped to its configured stage |
| StatusUtils.GetStatusConfig | lib/status-utils.ts:19-22 | a null, empty or unknown status gets the `not_contacted` configuration |
| StatusUtils.GetStatusConfigOfName | lib/status-utils.ts:19-22 | a known status gets its own configuration |
| StatusUtils.GetStatusPipelineStage | lib/status-utils.ts:27-30 | a null, empty or unknown status is placed in `follow_up` |
| StatusUtils.GetStatusPipelineStageOfName | lib/status-utils.ts:27-30 | a known status is placed in the stage whose list contains it |
| StatusUtils.StageLookupAgreesWithConfig | lib/status-utils.ts:19-30 | for every input the stage lookup equals the stage of the configuration lookup, so the two fallbacks agree |
| StatusUtils.IndexOf | lib/status-utils.ts:50 | `indexOf` gives -1 exactly for an absent element, and otherwise the first position holding it |
| StatusUtils.GetPipelineStageIndex | lib/status-utils.ts:48-51 | lost and future give -1, and the other four stages give their position 0 to 3 in the stage order |
| StatusUtils.ProgressTrack | lib/status-utils.ts:49 | exactly lost and future are off the progress track |
| StatusFlow.GetVisibleStatuses | lib/status-flow.ts:72-74 | the result holds exactly the non-hidden statuses of the input, and is no longer than it |
| StatusFlow.VisibleDistributes | lib/status-flow.ts:72-74 | filtering distributes over concatenation, so the input order is kept |
| StatusFlow.VisibleIdempotent | lib/status-flow.ts:72-74 | filtering twice is filtering once, and a list without hidden statuses is unchanged |
| StatusFlow.GetQuickActions | lib/status-flow.ts:63-67 | suggestions never contain a hidden status and are the visible part of the status's flow entry; an unknown status that is not an inherited member name offers nothing (the corrected half of the status-flow finding) |
| StatusFlow.GetQuickActionsAsWritten | lib/status-flow.ts:63-67 | as written, the lookup fails exactly for a status naming an inherited object member, and otherwise gives what GetQuickActions gives |
| StatusFlow.InheritedStatusThrows | lib/status-flow.ts:65-66 | a stored status `constructor` makes the as-written lookup fail, where the corrected one offers nothing |
| StatusFlow.AsWrittenAgreesOnStatuses | lib/status-flow.ts:65-66 | for every one of the fourteen statuses the as-written and corrected lookups agree |
| StatusFlow.QuickActionsForMissingStatus | lib/status-flow.ts:63-64 | null, `''` and `not_contacted` get the same suggestions, namely no_answer then not_relevant |
| StatusFlow.FlowHasNoSelfLoops | lib/status-flow.ts:32-58 | every status has a non-empty flow entry that does not list the status itself |
| StatusFlow.SignedStageIsClosed | lib/status-flow.ts:46-50 | every flow target of a signed-stage status is itself in the signed stage |
| PhoneNormalize.KeepDigits | scripts/sync/phone_normalize.py:33 | removing non-digits leaves only digits, never lengthens, and keeps an all-digit string as it is |
| PhoneNormalize.NormalizePhone | scripts/sync/phone_normalize.py:12-59 | None and `''` give None, and any result is all digits with at least 7 of them |
| PhoneNormalize.NormalizeIgnoresSeparators | scripts/sync/phone_normalize.py:33-36 | a number normalises like its digits alone, so dashes, spaces and `+` make no difference |
| PhoneNormalize.NormalizeLengthThreshold | scripts/sync/phone_normalize.py:47-59 | fewer than 7 digits are rejected, and 7 or more digits not starting with 972 are accepted |
| PhoneNormalize.InternationalPrefixBecomesZero | scripts/sync/phone_normalize.py:39-40 | a leading 972 is replaced by 0 |
| PhoneNormalize.MissingZeroRestored | scripts/sync/phone_normalize.py:43-44 | a 9-digit number starting with 5 gets a leading 0 |
| PhoneNormalize.LocalNumbersKept | scripts/sync/phone_normalize.py:47-59 | a 9- or 10-digit number starting with 0 is returned unchanged |
| PhoneNormalize.NormalizeIdempotent | scripts/sync/phone_normalize.py:12-59 | normalising a normalised number returns it unchanged |
| PhoneNormalize.ExampleInternational | scripts/sync/phone_normalize.py:120-131 | 972501234567 gives 0501234567 |
| PhoneNormalize.ExampleLocal | scripts/sync/phone_normalize.py:120-131 | 0501234567 is kept |
| PhoneNormalize.ExampleInternationalDashed | scripts/sync/phone_normalize.py:121 | +972-50-123-4567 gives 0501234567 |
| PhoneNormalize.ExampleLocalDashed | scripts/sync/phone_normalize.py:123 | 050-123-4567 gives 0501234567 |
| PhoneNormalize.ExampleLocalSpaced | scripts/sync/phone_normalize.py:126 | 050 123 4567 gives 0501234567 |
| PhoneNormalize.ExampleInternationalPlus | scripts/sync/phone_normalize.py:127 | +972501234567 gives 0501234567 |
| PhoneNormalize.ExampleMissingZero | scripts/sync/phone_normalize.py:120-131 | 501234567 gives 0501234567 |
| PhoneNormalize.ExamplesRejected | scripts/sync/phone_normalize.py:120-131 | `''`, None, `abc` and `123` give None |
| PhoneNormalize.PhonesMatch | scripts/sync/phone_normalize.py:62-79 | two numbers match exactly when both normalise, to the same form |
| PhoneNormalize.PhonesMatchIsEquivalence | scripts/sync/phone_normalize.py:73-79 | matching is symmetric and transitive, and reflexive exactly on numbers that normalise |
| PhoneNormalize.ExtractPhoneVariants | scripts/sync/phone_normalize.py:82-115 | a number that does not normalise gets no variants; otherwise the variant list has the documented shape, and every variant normalises back to the same number |
| PhoneNormalize.VariantListFacts | scripts/sync/phone_normalize.py:94-115 | the list built from a normalised number has the documented shape, and each entry normalises to that number |
| PhoneNormalize.VariantListShape | scripts/sync/phone_normalize.py:94-115 | the list starts with the number, has the 972 and +972 forms only for a leading 0, and has a dashed form only for 10 digits |
| PhoneNormalize.InternationalVariants | scripts/sync/phone_normalize.py:104-107 | the 972 and +972 forms of a 0-prefixed number normalise back to it |
| PhoneNormalize.DashedVariant | scripts/sync/phone_normalize.py:110-113 | the 3-3-4 dashed form of a 10-digit number is 12 characters long and normalises back to it |
| PhoneNormalize.DashedDigits | scripts/sync/phone_normalize.py:110-113 | removing the dashes from the dashed form gives the number back |
| Reconcile.NormalizeZohoStatus | scripts/sync/reconcile.py:243-247 | `''` gives `new`; a trimmed label in the status map gives its target; any other text is the trimmed text, character by character, with each space turned into `_` and each letter lower-cased, so it has the trimmed length, no spaces and no upper case |
| Reconcile.StatusMapTargetsCanonical | scripts/sync/reconcile.py:76-101 | every target of the Hebrew status map is one of the 14 statuses |
| Reconcile.ZohoLabelsRoundTrip | scripts/sync/reconcile.py:76-101 | the Hebrew display label of each of the ten pre-signed and lost statuses maps back to that status |
| Reconcile.FuzzyNameMatch | scripts/sync/reconcile.py:392-403 | an empty name gives no match with score 0; otherwise the score is the oracle ratio of the normalised names, and it is a match exactly when that reaches 0.85 |
| Reconcile.FirstHitSpec | scripts/sync/reconcile.py:420-434 | the first hit is a hit with no hit before it, and there is none exactly when no element hits |
| Reconcile.BestHitSpec | scripts/sync/reconcile.py:437-447 | the best hit scores at least as high as every hit, strictly higher than every earlier hit, and exists exactly when some element hits |
| Reconcile.BestHitStep | scripts/sync/reconcile.py:437-447 | one more candidate replaces the best only when it hits and scores strictly higher |
| Reconcile.MatchOfProperties | scripts/sync/reconcile.py:406-449 | the tiers in order: a phone match when any unclaimed phone hit exists (confidence 1.0), else an email match (0.9), else a name match, else none with confidence 0; a found lead is always unclaimed |
| Reconcile.MatchOfFoundIffMatched | scripts/sync/reconcile.py:449 | a lead is returned exactly when the match type is not `none` |
| Reconcile.MatchOfPicksUnclaimed | scripts/sync/reconcile.py:422 | a returned lead is one of the candidates and its id is not yet claimed |
| Reconcile.FindFirst | scripts/sync/reconcile.py:420-434 | the early-return scan returns the first hit |
| Reconcile.FindBest | scripts/sync/reconcile.py:437-447 | the scan keeping a running best returns the best hit |
| Reconcile.FindSupabaseMatch | scripts/sync/reconcile.py:406-449 | the imperative matcher returns the tiered match whose properties are proved above |
| Reconcile.ResultFor | scripts/sync/reconcile.py:463-500 | a result carries the matched lead's id exactly when a lead was found |
| Reconcile.Reconciled | scripts/sync/reconcile.py:463-500 | one result per Zoho lead, in input order, carrying its id and status; a datastore id exactly when matched; no status difference when unmatched |
| Reconcile.ReconciledClaimsDistinct | scripts/sync/reconcile.py:463-500 | no datastore id is claimed by two results, and every claimed id is a datastore id |
| Reconcile.UnmatchedSupabase | scripts/sync/reconcile.py:505-517 | the unmatched datastore leads are those whose id was not claimed |
| Reconcile.MatchAll | scripts/sync/reconcile.py:463-500 | the loop yields the reconciled results and the set of claimed ids |
| Reconcile.GenerateReconciliationReport | scripts/sync/reconcile.py:452-532 | every report field is the corresponding count or list of the reconciled results, and with distinct non-empty datastore ids both balances hold |
| Reconcile.ReportBalances | scripts/sync/reconcile.py:505-527 | with distinct non-empty ids: matched plus unmatched Zoho leads is the Zoho count, and matched plus unmatched datastore leads is the datastore count |
| StatusSync.ValidStatusesAreLeadStatuses | scripts/sync/status_sync.py:53-66 | the valid-status set is exactly the set of the 14 status names |
| StatusSync.NewIsNotValid | scripts/sync/status_sync.py:53-66 | `new` is not a valid status |
| StatusSync.ToUpdate | scripts/sync/status_sync.py:121-130 | an update carries the match's ids, name and new status; its old status is `unknown` exactly when the stored one is missing or empty |
| StatusSync.PendingUpdates | scripts/sync/status_sync.py:92-132 | at most one update per match, each with a valid new status and a datastore id |
| StatusSync.PendingUpdatesConcat | scripts/sync/status_sync.py:103-121 | the filter distributes over concatenation, so match order is kept |
| StatusSync.PendingUpdatesMembers | scripts/sync/status_sync.py:104-119 | an update is produced exactly for the matches that are matched, differ (or carry notes when asked) and have a valid status |
| StatusSync.EmptyZohoStatusNeverSynced | scripts/sync/status_sync.py:117-119 | a match whose Zoho status came from an empty label (`new`) is never synced |
| StatusSync.GetPendingUpdates | scripts/sync/status_sync.py:92-132 | the loop returns the filtered updates |
| StatusSync.ApplyUpdatesDryRun | scripts/sync/status_sync.py:170-192 | a dry run attempts and succeeds every update, fails none and reports no errors |
| StatusSync.Errors | scripts/sync/status_sync.py:287-301 | one error per update the writer refuses |
| StatusSync.ApplyUpdates | scripts/sync/status_sync.py:272-309 | missing credentials fail every update with one error; otherwise succeeded plus failed is attempted, errors match failures, and success means no failure |
| StatusSync.AllAcceptedMatchesDryRun | scripts/sync/status_sync.py:287-309 | when the writer accepts every update, the real run reports what the dry run reports |
| Kpis.Tally | actions/kpis.ts:36-50 | the total is the sum of the four legacy counters |
| Kpis.TallyCounts | actions/kpis.ts:36-50 | each counter is the number of rows holding that legacy status |
| Kpis.TallyTotalIsAllRows | actions/kpis.ts:44-50 | the total never exceeds the rows, and equals them exactly when every row holds a legacy status |
| Kpis.CountLegacyStatuses | actions/kpis.ts:36-50 | the counting loop computes the corrected tally |
| Kpis.PrototypeNameInflatesTotal | actions/kpis.ts:44-50 | as written, a row with status `constructor` raises the total while no counter moves |
| Kpis.PrototypeNameDilutesFunnel | actions/kpis.ts:98-103 | as written, a `new` lead beside a `constructor` lead reads 50% in the funnel, where own-key counting gives 100% |
| Kpis.TallyAsWrittenAgrees | actions/kpis.ts:44-50 | as written and corrected counting agree when no row holds an object-prototype name |
| Kpis.SumPipeline | actions/kpis.ts:59-67 | the loop computes the total and the probability-weighted pipeline sums |
| Kpis.DefaultProbabilityIsHalf | actions/kpis.ts:62-67 | with no probabilities set, the weighted value is half the total |
| Kpis.WeightedAtMostTotal | actions/kpis.ts:62-67 | with non-negative revenues and probabilities in 0..100, the weighted value lies between 0 and the total |
| Kpis.Percentage | actions/kpis.ts:75 | a rate lies in 0..100, is 0 for an empty whole, and is otherwise the part's share of 100 |
| Kpis.GetLeadKpis | actions/kpis.ts:26-79 | each counter counts its legacy status, the total is their sum, the conversion rate is the customers' share (0 when the total is 0), and the pipeline figures are the sums; the total is the corrected count over own keys only (see Findings) |
| Kpis.Funnel | actions/kpis.ts:105-110 | four items in the order new, contacted, customer, lost, whose counts sum to the total, all at 0% when the total is 0 |
| Kpis.FunnelPercentagesSum | actions/kpis.ts:105-110 | with a non-zero total the four percentages sum to 100 |
| Kpis.GetConversionFunnel | actions/kpis.ts:81-111 | the four items count their statuses in order, sum to the total, and read 0% when the total is 0; this counts own keys only, the corrected form of the funnel's `in` test (see Findings) |
| Kpis.GroupBySource | actions/kpis.ts:122-143 | the `forEach` loop builds the grouped map, its keys in first-seen order |
| Kpis.GroupedFacts | actions/kpis.ts:128-143 | each source is listed once, counts its rows and its customer rows, has no more customers than leads, and the lead counts sum to the number of rows |
| Kpis.GroupedRevenue | actions/kpis.ts:137-140 | a source's revenue is the revenue of its customer rows only, a missing value read as 0 |
| Kpis.Entries | actions/kpis.ts:145-154 | one entry per source in map order, with its counts, customers at most leads, and a rate in 0..100 |
| Kpis.EntriesSumToRows | actions/kpis.ts:128-154 | before the cut the entries' lead counts sum to the number of rows |
| Kpis.SortByLeadsPermutes | actions/kpis.ts:155 | sorting is a permutation |
| Kpis.SortByLeadsSorted | actions/kpis.ts:155 | sorting orders the entries by lead count, descending |
| Kpis.SortByLeadsStable | actions/kpis.ts:155 | entries with equal lead counts keep their relative order |
| Kpis.TopSourcesFacts | actions/kpis.ts:155-156 | the top list is sorted, is drawn from the entries, and holds them all when there are at most five |
| Kpis.TopSourcesCutIsFair | actions/kpis.ts:155-156 | no entry left out of the top list has more leads than one kept |
| Kpis.GetUtmPerformance | actions/kpis.ts:113-157 | at most five entries, sorted by lead count, each with customers at most leads and a rate in 0..100 |
| LeadEvents.PlainEvent | actions/leads.ts:357-361 | an event with only its lead, type and user, and no field, values or metadata |
| LeadEvents.EventLog.constructor | actions/leads.ts:63-72 | the event log starts empty |
| LeadEvents.EventLog.Append | actions/leads.ts:63-72 | an insert into the event table appends exactly that event |
| Leads.InsertedRow | actions/leads.ts:54-55 | a new lead stores status `new`, `is_new` true, no deletion stamp, no last-seen time and no playbook |
| Leads.CreateInsert | actions/leads.ts:34-56 | the insert carries the input's columns, with custom fields defaulting to empty |
| Leads.CreatedEvent | actions/leads.ts:63-72 | the `created` event names the lead, carries its name as new value and the caller's email |
| Leads.FieldsToCheckListed | actions/leads.ts:217-220 | the nine compared fields are all listed, each once |
| Leads.Get | actions/leads.ts:222-231 | the stored value of a compared field has that field's type |
| Leads.ChangesOver | actions/leads.ts:222-231 | the scan records at most one change per field |
| Leads.UpdateMapEmpty | actions/leads.ts:242-244 | the update object is empty exactly when no field changed |
| Leads.ScanUpdates | actions/leads.ts:222-231 | a field is written exactly when it is listed, given and different from the stored value, and it is written with the given value |
| Leads.ScanEntry | actions/leads.ts:222-231 | every recorded change holds the stored old value and a different given new value |
| Leads.ScanDistinct | actions/leads.ts:222-231 | no field is recorded twice |
| Leads.ChangesSpec | actions/leads.ts:217-231 | over the nine fields, a field is written exactly when given and different |
| Leads.ChangesFit | actions/leads.ts:222-231 | well-typed input values give well-typed writes |
| Leads.MergeCustomFields | actions/leads.ts:234-240 | the merged custom fields hold both key sets, and input keys override stored ones |
| Leads.RevisedColumns | actions/leads.ts:234-254 | after an update each compared column holds the given value if there is one, else its old value |
| Leads.RevisedOtherColumns | actions/leads.ts:234-254 | an update touches no other column except the merged custom fields |
| Leads.UpdateIsIdempotent | actions/leads.ts:217-244 | repeating the same update finds nothing to change |
| Leads.ChangeEvent | actions/leads.ts:257-266 | a change's event is `status_changed` exactly for the status field and `field_changed` otherwise, with the field name and both values |
| Leads.ChangeEvents | actions/leads.ts:257-266 | one event per change, in change order |
| Leads.StatusEventExactlyWhenStatusChanges | actions/leads.ts:257-266 | a `status_changed` event is logged exactly when the status is given and differs, and at most one is logged |
| Leads.SoftDeleted | actions/leads.ts:348-361 | only the named row changes; it gets a deletion stamp, and an already deleted row keeps its stamp |
| Leads.SoftDeleteKeepsFirstStamp | actions/leads.ts:348-361 | deleting twice keeps the first stamp |
| Leads.RestoredRows | actions/leads.ts:384-396 | only the named row changes, and its deletion stamp is cleared |
| Leads.RestoreUndoesDelete | actions/leads.ts:384-396 | restoring a lead that was live before a delete gives back the table before the delete |
| Leads.SeenRows | actions/leads.ts:415-421 | only the named row changes: `is_new` false and last-seen set to now |
| Leads.StatusWritten | actions/leads.ts:305-311 | the status takes the new status, `is_new` becomes whether it is `new`, and every other column keeps its value |
| Leads.StatusWriteClearsIsNew | actions/leads.ts:305-311 | writing any of the 14 statuses sets `is_new` false, since none is named `new` |
| Leads.LeadTable.constructor | actions/leads.ts:23-85 | the table starts empty |
| Leads.LeadTable.Insert | actions/leads.ts:34-60 | an id already present fails with a duplicate-key error and changes nothing; otherwise the inserted row is added |
| Leads.LeadTable.CreateLead | actions/leads.ts:23-85 | on success the new row is stored and exactly one `created` event is logged; on a duplicate id nothing changes |
| Leads.LeadTable.UpdateLead | actions/leads.ts:193-280 | a missing lead gives `Lead not found`; no difference gives the row with no write and no event; otherwise the revised row is written and one event per changed field is logged |
| Leads.LeadTable.ScanChanges | actions/leads.ts:222-231 | the loop builds the changed-field list and the update object |
| Leads.LeadTable.LogChanges | actions/leads.ts:257-266 | the loop appends one event per changed field, in order |
| Leads.LeadTable.UpdateLeadStatus | actions/leads.ts:283-337 | a missing lead gives `Lead not found`; otherwise any status is written, with no flow check, and one `status_changed` event with the old and new values is logged |
| Leads.LeadTable.SoftDeleteLead | actions/leads.ts:340-374 | success in every case; the table becomes its soft-deleted form; a `deleted` event is logged for an existing lead, live or already deleted, and nothing is logged for an unknown id, whose event the `lead_events_lead_id_fkey` foreign key rejects unchecked |
| Leads.LeadTable.RestoreLead | actions/leads.ts:376-409 | success in every case; the table becomes its restored form; a `restored` event is logged for an existing lead, and nothing for an unknown id, whose event the foreign key rejects unchecked |
| Leads.LeadTable.MarkLeadAsSeen | actions/leads.ts:412-424 | the table becomes its seen form |
| Notes.AddedPreview | actions/notes.ts:94 | the `note_added` preview is the content up to 100 characters, with `...` exactly when it is longer |
| Notes.EditPreview | actions/notes.ts:217-218 | the update and delete previews are the first 50 characters followed by `...`, always |
| Notes.Prefix | actions/notes.ts:94 | `substring(0, n)` keeps the first n characters, or all of them |
| Notes.NoteAddedEvent | actions/notes.ts:90-99 | the `note_added` event carries the preview, the note id and the author's display name |
| Notes.NoteUpdatedEvent | actions/notes.ts:213-222 | the `note_updated` event carries the old and new previews and the note id |
| Notes.NoteDeletedEvent | actions/notes.ts:288-296 | the `note_deleted` event carries the old preview and the note id |
| Notes.DeleteHidesNote | actions/notes.ts:279-285 | a soft delete removes exactly that note from its lead's live notes |
| Notes.CreateShowsNote | actions/notes.ts:77-87 | a created note joins exactly its own lead's live notes |
| Notes.EditKeepsLiveNotes | actions/notes.ts:202-210 | an edit leaves every lead's live notes unchanged |
| Notes.WithAuthor | actions/notes.ts:149-155 | a note gets its author's name and email, or `Unknown User` and `''` when the author has no profile |
| Notes.Authors | actions/notes.ts:143 | the author ids of the notes, in order |
| Notes.WithAuthors | actions/notes.ts:149-156 | each note is joined with its author |
| Notes.AuthorsResolved | actions/notes.ts:143-156 | joining with the profiles fetched for the notes' authors equals joining with the whole profile table |
| Notes.CountByLead | actions/notes.ts:334-338 | the count map has exactly the given lead ids, each with its number of rows, and the counts sum to the row count |
| Notes.FetchProfile | actions/notes.ts:69-72 | with a signed-in user the profile is found or created and stored; without one it fails and nothing changes |
| Notes.NoteTable.constructor | actions/notes.ts:46-118 | the note table starts empty |
| Notes.NoteTable.CreateNote | actions/notes.ts:46-118 | no user, blank content or no profile give errors with nothing changed; otherwise the trimmed note is stored, a `note_added` event is logged and the note comes back with its author |
| Notes.NoteTable.AddNote | actions/notes.ts:77-110 | the insert-and-log part of creating a note, with the same outcomes |
| Notes.NoteTable.UpdateNote | actions/notes.ts:162-244 | no user, blank content, a missing note or another user's note give errors with nothing changed; otherwise the trimmed content is stored and a `note_updated` event is logged |
| Notes.NoteTable.ReviseNote | actions/notes.ts:202-236 | the write-and-log part of an edit; the reply falls back to `Unknown User` when no profile is available |
| Notes.NoteTable.DeleteNote | actions/notes.ts:249-308 | no user, a missing note or another user's note give errors with nothing changed; otherwise the note is stamped deleted and a `note_deleted` event is logged |
| Notes.NoteTable.SelectLiveNotes | actions/notes.ts:126-131 | exactly the lead's non-deleted notes, each once, newest first |
| Notes.NoteTable.GetNotes | actions/notes.ts:123-157 | exactly the lead's live notes, newest first, each joined with its author or the fallback |
| Notes.NoteTable.SelectLiveLeadIds | actions/notes.ts:322-326 | one row per live note of a requested lead |
| Notes.NoteTable.GetNoteCountsForLeads | actions/notes.ts:314-341 | empty input gives an empty map; otherwise each requested lead with live notes maps to its count, and the counts sum to the rows |
| Playbooks.NewPlaybook | actions/playbooks.ts:26-37 | content defaults to `''`, `is_default` is true only when requested, and the creator is the user or the anonymous id |
| Playbooks.Changed | actions/playbooks.ts:133-149 | a field is included exactly when given and different, and then with the given value |
| Playbooks.ChangedNullable | actions/playbooks.ts:133-149 | the same for nullable columns: a given string is included exactly when it differs from the stored value, so it is included over a stored null |
| Playbooks.UpdateTakesRequest | actions/playbooks.ts:133-160 | the updated playbook holds every given field and keeps the rest |
| Playbooks.NoChangesExactlyWhenSame | actions/playbooks.ts:151-153 | the diff is empty exactly when applying it would change nothing |
| Playbooks.UpdatePlaybookIdempotent | actions/playbooks.ts:133-153 | repeating an update finds nothing to change |
| Playbooks.TheOnly | actions/playbooks.ts:89-109 | `.single()` gives a row exactly when one row qualifies |
| Playbooks.DefaultIds | actions/playbooks.ts:89-109 | the default, live playbooks are rows of the table |
| Playbooks.PlaybookTable.constructor | actions/playbooks.ts:17-51 | the playbook table starts empty |
| Playbooks.PlaybookTable.CreatePlaybook | actions/playbooks.ts:17-51 | a duplicate id fails with nothing changed; otherwise the new playbook is stored and returned |
| Playbooks.PlaybookTable.GetPlaybook | actions/playbooks.ts:71-87 | a playbook is found exactly when it exists and is not deleted |
| Playbooks.PlaybookTable.GetDefaultPlaybook | actions/playbooks.ts:89-109 | the default is found exactly when one live playbook is marked default, and that one is returned |
| Playbooks.PlaybookTable.UpdatePlaybook | actions/playbooks.ts:112-175 | a missing or deleted playbook gives `Playbook not found`; no difference returns it unchanged; otherwise the diff is written |
| Playbooks.PlaybookTable.CollectChanges | actions/playbooks.ts:133-149 | the chain of ifs builds the diff |
| Playbooks.PlaybookTable.DeletePlaybook | actions/playbooks.ts:178-204 | only a live playbook gets a deletion stamp; afterwards it cannot be read |
| Playbooks.PlaybookTable.GetPlaybookForLead | actions/playbooks.ts:236-253 | the lead's assigned live playbook, otherwise the default; never a deleted one |
| Playbooks.AssignedId | actions/playbooks.ts:240-246 | the lead's playbook id when the lead exists and the id is non-empty |
| Playbooks.SetLeadPlaybook | actions/playbooks.ts:207-234 | the lead's playbook id becomes the given value, null included, and nothing else changes |
| Playbooks.AssignedPlaybookWins | actions/playbooks.ts:246-248 | an assigned live playbook is the one returned |
| Playbooks.UnassignedFallsBack | actions/playbooks.ts:250-252 | without an assigned live playbook the default is returned |
| UserProfiles.LocalPart | actions/user-profile.ts:45 | the text before the first `@`, or all of it |
| UserProfiles.LocalPartIsFirstPiece | actions/user-profile.ts:45 | the local part is the first piece of `split('@')` |
| UserProfiles.Spaced | actions/user-profile.ts:47-48 | `.`, `_` and `-` become spaces and nothing else changes |
| UserProfiles.Capitalize | actions/user-profile.ts:49-50 | capitalising a word keeps its length |
| UserProfiles.CapitalizeAll | actions/user-profile.ts:49-50 | one capitalised word per word |
| UserProfiles.TitleCase | actions/user-profile.ts:47-51 | title-casing keeps the length |
| UserProfiles.DisplayNameIsTitleCase | actions/user-profile.ts:44-52 | the generated name is the spaced local part, with each space-separated piece upper-cased first and lower-cased after |
| UserProfiles.DisplayNameIgnoresDomain | actions/user-profile.ts:45 | the domain has no effect on the generated name |
| UserProfiles.CheckDisplayName | actions/user-profile.ts:187-193 | a trimmed name of 2 to 50 characters is accepted as trimmed; shorter or longer gives the matching error |
| UserProfiles.ProfileTable.constructor | actions/user-profile.ts:58-121 | the profile table starts empty |
| UserProfiles.ProfileTable.GetOrCreateUserProfile | actions/user-profile.ts:58-121 | no user gives an error; an existing profile is returned unchanged; otherwise a profile with the generated name, or the raced one, is stored and returned |
| UserProfiles.ProfileTable.GetUserProfiles | actions/user-profile.ts:146-169 | empty input gives an empty map; otherwise exactly the requested users with profiles, keyed by user id |
| UserProfiles.ProfileTable.UpdateDisplayName | actions/user-profile.ts:174-214 | no user or an invalid name give errors with nothing changed; otherwise the trimmed name is stored |
| Utils.SliceTo | lib/utils.ts:73 | `slice(0, n)` is a prefix of length n, with a negative n counting from the end |
| Utils.Truncate | lib/utils.ts:70-74 | null or `''` give `''`, text within the limit is kept, and longer text is cut to the limit followed by `...` |
| Utils.TruncateBounds | lib/utils.ts:70-74 | a truncated text is at most 3 longer than the limit and starts like the text |
| Utils.SplitOnSpaces | lib/utils.ts:79 | `split(/\s+/)` always has at least one piece |
| Utils.SplitOfTrimmedIsWords | lib/utils.ts:79 | on trimmed text the split gives exactly its words |
| Utils.GetInitials | lib/utils.ts:77-82 | null or `''` give `?`, and the result has at most two characters |
| Utils.InitialsFromWords | lib/utils.ts:79-81 | one word gives its upper-cased first letter, several give the first letters of the first and last words |
| Utils.BlankNameHasNoInitials | lib/utils.ts:77-82 | as written, a whitespace-only name gives `''` |
| Utils.GetInitialsOrMark | lib/utils.ts:77-82 | never empty: a blank name gives `?` like a missing one, and any other name gives its initials |
| Utils.FormatRelativeTime | lib/utils.ts:29-42 | `-` for a missing date; the bucket follows the elapsed seconds, with under 60 as just now, then minutes, hours and days in their ranges, and a week or more as a date |
| Utils.RelativeTimeMonotone | lib/utils.ts:36-41 | more elapsed time never gives a finer bucket |
| Utils.FormatDate | lib/utils.ts:9-27 | null and `''` show `-` (a falsy check), anything else is formatted |
| Utils.FormatNumber | lib/utils.ts:45-67 | only null shows `-` (an identity check) |
| Utils.ZeroIsShownEmptyDateIsNot | lib/utils.ts:45-52 | 0 is formatted while an empty date shows `-` |
| LeadsRealtime.Filter | hooks/use-leads-realtime.ts:25-31 | the kept elements all pass, each as often as before and in order |
| LeadsRealtime.ReplaceById | hooks/use-leads-realtime.ts:25-27 | every element with the updated id is replaced, and the rest stay in place |
| LeadsRealtime.ApplyKeepsNoneDeleted | hooks/use-leads-realtime.ts:13-35 | no change event brings a soft-deleted lead into a list that had none |
| LeadsRealtime.UpdateNeverAddsId | hooks/use-leads-realtime.ts:22-28 | an update never adds a lead whose id was not in the list, and leaves no deleted lead |
| LeadsRealtime.UpdateOfAbsentId | hooks/use-leads-realtime.ts:25-27 | an update for an absent id only drops the deleted leads |
| LeadsRealtime.DeleteRemovesExactly | hooks/use-leads-realtime.ts:29-31 | a delete removes exactly the rows with that id and keeps the others in order |
| LeadsRealtime.LeadsView.constructor | hooks/use-leads-realtime.ts:10 | the list starts as the server-rendered leads |
| LeadsRealtime.LeadsView.HandleChange | hooks/use-leads-realtime.ts:13-35 | an insert prepends a live lead and ignores a deleted one, and every change keeps the list free of deleted leads |
| LeadsRealtime.LeadsView.SyncInitialLeads | hooks/use-leads-realtime.ts:56-59 | a new `initialLeads` prop replaces the whole list, discarding the changes applied so far |
| Webhook.OrElse | app/api/leads/webhook/route.ts:92-93 | `a \|\| b` takes a when it is truthy, else b |
| Webhook.UtmWarnings | app/api/leads/webhook/route.ts:48-57 | the medium and campaign warnings appear exactly when a source is present without them, and the gclid warning exactly when a gclid has no source |
| Webhook.UtmWarningsShape | app/api/leads/webhook/route.ts:48-57 | at most two warnings, the gclid warning alone, medium before campaign, none for complete UTM fields |
| Webhook.WebhookInsert | app/api/leads/webhook/route.ts:72-98 | the row takes the body's fields, source defaulting to `webhook`, custom fields to `{}`, and IP and user agent to the headers |
| Webhook.WebhookCreatedEvent | app/api/leads/webhook/route.ts:109-118 | the `created` event has user `webhook`, the lead's name, and the source and UTM source in its metadata |
| Webhook.Rejection | app/api/leads/webhook/route.ts:19-45 | a request gets through exactly when configured, the secret matches if one is set, and the body is JSON with a name; a missing configuration gives 503 before anything else, then a missing or wrong secret header gives 401, then a body that is not JSON gives 500, then a missing or empty name gives 400 |
| Webhook.SecretIgnoredWhenUnset | app/api/leads/webhook/route.ts:29-35 | with no secret set, the secret header makes no difference |
| Webhook.MissingSecretRefused | app/api/leads/webhook/route.ts:29-35 | with a secret set, a request whose header is missing or differs from it gets 401, whatever its body |
| Webhook.Post | app/api/leads/webhook/route.ts:17-132 | a rejected request changes nothing; an accepted one logs its warnings, inserts the lead and logs one `created` event, or fails with nothing changed on a duplicate id |
| Webhook.WebhookLeadDefaults | app/api/leads/webhook/route.ts:80-95 | a webhook lead is stored with status `new`, `is_new` true, no deletion, source `webhook` and empty custom fields |
| NewLeadStatus.Statuses | actions/kpis.ts:30-33 | the status column of each lead, in order |
| NewLeadStatus.InsertedLeadClassification | actions/leads.ts:54-55 | a freshly inserted lead's status `new` is not a canonical status, so it is shown in `follow_up` with `not_contacted`'s configuration and offered no next status |
| NewLeadStatus.FreshLeadsCountedAsNew | actions/kpis.ts:36-50 | leads that all still hold `new` are all counted as new, and all sit in `follow_up` |
| NewLeadStatus.CanonicalStatusesConvertNothing | actions/kpis.ts:36-75 | over canonical statuses only `contacted` is counted, nobody is new, customer or lost, and the conversion rate is 0 |

## Left out

- Network and datastore I/O are not modelled. This covers Supabase and Zoho HTTP calls, paging, token refresh, `revalidatePath`, React `cache` and the dev/prod table switch. Each table is an in-memory map, and database error texts are constants.
- `getLeads`, `getLeadById`, `getLeadWithEvents`, `getRecentActivity`, `getPlaybooks` and `getUserProfile` are left out. They are query pass-throughs whose meaning is the remote filter.
- `getTimeSeriesTrendsInternal`, `requireAuth` and the exported authenticated wrappers of the KPI actions are left out. They are date arithmetic and an auth gate around the modelled reducers.
- Locale formatting is left out (`Intl.DateTimeFormat`, `Intl.NumberFormat`, date-fns). A formatted value is represented by the value it formats, and `formatRelativeTime` takes the elapsed whole seconds as a parameter.
- Floating point is modelled as exact `real` arithmetic. This applies to the KPI rates, the weighted pipeline and the name-tier confidence `score * 0.7`.
- Reconcile.FuzzyNameMatch: the `SequenceMatcher` ratio is an oracle parameter; only the wrapper around it is modelled.
- StatusSync.ApplyUpdates: `apply_single_update` is an oracle parameter. The database write it performs is not modelled.
- PhoneNormalize.KeepDigits: `\D` is read as ASCII non-digits, so Unicode decimal digits (Arabic-Indic ones, say) are dropped rather than kept as Python's `re` keeps them.
- UserProfiles.CheckDisplayName: lengths are counted in Unicode scalars, not UTF-16 code units, so the 2 and 50 limits differ from the source for characters outside the Basic Multilingual Plane (the source accepts "👍" as two long).
- Notes.Prefix: `substring(0, n)` is cut in Unicode scalars, not UTF-16 code units, so it never splits a surrogate pair as the source can.
- Notes.AddedPreview: the 100-character cut and the `length > 100` test count Unicode scalars, not UTF-16 code units.
- Notes.EditPreview: the 50-character cut counts Unicode scalars, not UTF-16 code units.
- Utils.SliceTo: `slice(0, n)` is measured in Unicode scalars, not UTF-16 code units.
- Utils.Truncate: the limit and the `length <=` test count Unicode scalars, not UTF-16 code units, so the result never ends in half a surrogate pair as the source's can.
- Utils.InitialsFromWords: `charAt(0)` is read as a word's first Unicode scalar; the source takes one UTF-16 code unit, half of a leading emoji.
- Case mapping and whitespace are ASCII only. Unicode case folding and Unicode whitespace in `trim`, `split(/\s+/)`, `toUpperCase` and `lower()` are not modelled. Neither are the separators `\x1c` to `\x1f`, which Python's `strip()` and `split()` treat as whitespace (in reconcile.py: the Zoho status, the names of the fuzzy match and the lead email).
- Leads: `expected_revenue` and `probability` are whole numbers (`Option<int>`). Fractional values, and the `String(n)` text they would give in `field_changed` events, are not modelled.
- Notes.NoteTable.CreateNote: note timestamps are integers from the caller's clock rather than ISO strings. Ordering by `created_at` compares them as numbers.
- UserProfiles.ProfileTable.GetOrCreateUserProfile: the insert race is modelled by a parameter holding the row another request may have inserted. The timing of the race is not modelled.
- UserProfiles.ProfileTable.GetUserProfiles: the `in` query's deduplication of repeated ids is represented by the map only.
- Webhook.Post: the route ignores an error when it inserts the `created` event, and the model always appends the event. Exceptions other than a body that is not JSON (the `catch` at 125-131) are not modelled. The `GET` health check is left out.
- Webhook.UtmWarningsShape states at most two warnings. This is stronger than "at most three", because the source warnings and the gclid warning exclude each other.
- Logging (`console.log`, `print`) is not modelled, apart from the webhook's warning list.
- The development bypasses are not modelled (actions/notes.ts:22, actions/user-profile.ts:18-30, actions/kpis.ts:10). They return a fixed user or skip the sign-in check when an environment flag is set. The signed-in user is a parameter instead.
- The realtime channel subscription and its toast are not modelled. Only the `handleChange` reducer and the re-sync on a new `initialLeads` prop are. The moment React runs that re-sync, relative to queued change events, is not modelled.
- React components, the stale generated row types in `types/database.ts` and the end-to-end tests are not part of this model.

## Findings

| source | as written | input that shows it | evidently intended | confidence | as-written member | corrected member |
|---|---|---|---|---|---|---|
| actions/kpis.ts:44-50 | `if (status in counts)` tests the object's prototype chain too, so an inherited name passes and increments `total` while no counter changes | a lead whose status is `constructor` (or `toString`, `valueOf`, ...) | count only the four own keys, so that `total` is their sum | not executed | Kpis.PrototypeNameInflatesTotal | Kpis.Tally |
| actions/kpis.ts:98-103 | the funnel repeats `lead.status in counts`, so an inherited name raises `total` and lowers all four percentages | leads with statuses `new` and `constructor`: the `new` item reads 50% | the four percentages are shares of the four counted statuses and add up to 100 | not executed | Kpis.PrototypeNameDilutesFunnel | Kpis.GetConversionFunnel |
| lib/status-flow.ts:65-66 | `STATUS_FLOW[status] \|\| []` indexes a plain object, so a stored status naming an inherited member finds a function or object that `\|\|` keeps, and `.filter` throws a `TypeError` | a lead whose stored status is `constructor` (or `toString`, `__proto__`, ...) | an unknown status offers no quick actions | not executed | StatusFlow.InheritedStatusThrows | StatusFlow.GetQuickActions |
| lib/utils.ts:77-82 | only null and `''` get `?`; a whitespace-only name passes the check, and `trim().split(/\s+/)` gives `['']`, so the initials are `''` | name `" "` | a blank name shows `?` like a missing one | not executed | Utils.BlankNameHasNoInitials | Utils.GetInitialsOrMark |
