# Equipment management backend: a Dafny model

This project models the back end of a media-equipment management service. The
service tracks assets (`Materiel`), loans of assets to users (`Allocation`),
repair jobs (`Maintenance`), fault reports, equipment requests, user accounts
and a rule-based help chatbot. Each request handler loads some documents,
checks a status precondition, sets status and assignee fields and saves one or
more documents in turn. The model keeps that shape:

- `Store.Tables` is the whole document store as a value: one `map<Id, _>` per
  collection plus the next identifier to hand out. `Store.Db` is the same
  store as an object whose fields the handlers replace in place.
- Every handler is an imperative method on a `Db` (`AllocationController.ApproveAllocation`, …).
  It is proved equal to a pure specification function on `Tables`
  (`AllocationController.ApproveOutcome`, …). The function gives the handler's
  answer and the store it leaves behind, including the partial writes the
  handler makes when a second save fails.
- Properties relating several handlers or invariants of the store are lemmas
  about those functions.
- Role gates that the route table attaches to a handler are the method's
  `requires`. The clock is an integer parameter `now`. Identifiers are
  integers handed out by a counter.
- The schemas (`*_model.dfy`) hold each record's enumerations, defaults,
  validators and derived values (`totalCost`, `isOverdue`, `duration`).
- Status values are datatype constructors: `disponible`, `affecté`,
  `maintenance` and `hors_service` for assets; `en_attente`, `en_cours`,
  `terminee` and `annulee` for maintenance; `active`, `returned`, `overdue` and
  `cancelled` for allocations. An unapproved allocation is `active` with
  approval `pending`, as the schema has no `pending` status.

Mongoose behaviour the model commits to:

- A `findOne` without sort returns the earliest inserted match (`Common.MinId`).
- A filter key whose value is `undefined` is dropped. So `findOne({ email:
  undefined })` matches any user, and a chat message without a `sessionId`
  matches any of the caller's sessions.
- `findByIdAndUpdate` with `runValidators` validates only the paths it sets
  and runs no save hook.
- A handler that saves two documents and fails on the second leaves the first
  written. The outcome functions state these partial writes.

## Model

| member | source | states |
|---|---|---|
| Common.Render | backend/controllers/allocationController.js:385 | a template literal renders an absent value as the text `undefined`, a present one as itself |
| Common.AppendNote | backend/controllers/allocationController.js:385 | `notes + line` keeps existing notes as a prefix and always ends with the appended line |
| Common.AppendNoteToAbsentNotes | backend/controllers/maintenanceController.js:319 | appending to absent notes yields a text that starts with `undefined` |
| Common.AppendNoteCorrected | backend/controllers/allocationController.js:385 | the intended append: absent notes give just the new line, present notes get the line after them |
| Common.CeilDiv | backend/models/Allocation.js:94-99 | the smallest whole number of periods covering a span, as `Math.ceil(x / d)` |
| JsText.ToLower | backend/controllers/chatbotController.js:105 | lower-casing keeps the length and maps each character through the case mapping |
| JsText.ToLowerIdempotent | backend/controllers/materielController.js:131 | lower-casing twice is lower-casing once |
| JsText.Trim | backend/controllers/materielController.js:131 | the trimmed text is the slice of the input between white-space-only ends, no longer than it, and neither starts nor ends with white space |
| JsText.TrimNoSpaces | backend/controllers/materielController.js:131 | trimming a text with no outer white space leaves it unchanged |
| JsText.ContainsAnyIff | backend/controllers/chatbotController.js:136 | `keywords.some(k => s.includes(k))` holds exactly when some keyword occurs in the text |
| JsText.NatToString | backend/controllers/chatbotController.js:17 | a number's decimal rendering is a non-empty string of digits |
| JsText.NatToStringRoundTrip | backend/controllers/chatbotController.js:17 | reading back a number's decimal rendering gives the number |
| Common.MinId | backend/controllers/materielController.js:352-353 | the document a `findOne` returns belongs to the matching set and is its earliest |
| Store.ActiveAllocationsOf | backend/controllers/materielController.js:249-252 | exactly the allocations of an asset whose status is `active` |
| Store.OpenMaintenancesOf | backend/controllers/materielController.js:261-264 | exactly the maintenance jobs of an asset in `en_attente` or `en_cours` |
| Store.SerialHolders | backend/controllers/materielController.js:164 | exactly the assets carrying a given serial number |
| Store.SerialsUniqueAfterPut | backend/models/Materiel.js:18-22 | storing an asset whose serial no other asset carries keeps the unique index satisfied |
| Store.FreshKeyNotUsed | backend/controllers/materielController.js:170 | the next identifier names no stored document in any collection |
| Store.Db.FreshId | backend/controllers/materielController.js:170 | a new document gets the next identifier, and only the counter changes |
| Store.Db.SaveMateriel | backend/controllers/materielController.js:303 | a save writes the asset document exactly when every schema validator accepts it, and otherwise leaves the store unchanged |
| Store.Db.AddAllocation | backend/controllers/materielController.js:306-314 | a create stores the allocation under the next identifier exactly when every schema validator accepts it, and otherwise leaves the store unchanged |
| MaterielModel.RequiredText | backend/models/Materiel.js:4-8 | a required, trimmed text path holds the trimmed input, or nothing when the input is absent |
| MaterielModel.TrimmedText | backend/models/Materiel.js:14-17 | an optional trimmed path is absent exactly when the input is, else it holds the trimmed input |
| MaterielModel.OrDefault | backend/models/Materiel.js:72-81 | a path with a default holds the given value, or the default when none is given |
| MaterielModel.NewMateriel | backend/controllers/materielController.js:170-184 | a new asset is `disponible` and unassigned, keeps the given serial, and takes category `Autre`, condition `Bon`, a 365-day cycle and purchase date now unless given |
| MaterielModel.NewMaterielValid | backend/models/Materiel.js:3-85 | a new asset passes the schema exactly when name and location are non-blank, the type is one of the ten labels, the price is not negative, and any category or condition given is listed |
| MaterielModel.ApplyPatch | backend/controllers/materielController.js:218-222 | an edit may name any stored path, status and assignee included: a named status or assignee is taken, an unnamed one kept; an unnamed serial or hand-over date is kept; a named name or description is stored trimmed; the irreparable record is never touched; an empty edit changes nothing |
| MaterielModel.PatchKeepsValid | backend/controllers/materielController.js:218-222 | an edit that passes the update validators keeps a valid asset valid |
| MaterielModel.HandedOver | backend/controllers/materielController.js:300-302 | handing an asset over makes it `affecté`, assigned to the user since now, and changes nothing else |
| MaterielModel.Released | backend/controllers/materielController.js:346-348 | releasing an asset makes it `disponible` with no assignee or date, and changes nothing else |
| MaterielModel.HandOverThenRelease | backend/controllers/materielController.js:300-348 | releasing a just-handed-over asset that was available and unassigned restores it exactly |
| AllocationModel.NewAllocation | backend/models/Allocation.js:20-67 | a new allocation is `active` with the chosen approval status, links its asset, user and allocator, returns in condition `Bon`, and has no return, approver or returner yet |
| AllocationModel.NewAllocationValid | backend/models/Allocation.js:4-44 | a new allocation passes the schema exactly when it has a user and non-blank purpose and location |
| AllocationModel.Duration | backend/models/Allocation.js:94-99 | the duration is the number of started days from the allocation to the return, or to now while not returned |
| AllocationModel.OverdueStaysOverdue | backend/models/Allocation.js:86-91 | only an `active` allocation with an expected return date is overdue, and once overdue it stays overdue as the clock advances |
| AllocationModel.DurationFixedOnceReturned | backend/models/Allocation.js:94-99 | once returned, the duration no longer depends on the clock |
| AllocationModel.DurationMonotone | backend/models/Allocation.js:94-99 | while not returned, the duration never decreases as time passes |
| AllocationModel.ApplyPatch | backend/controllers/allocationController.js:190-194 | an edit may name any stored path: the asset, user, status and approval status take the named value and keep their own when not named; an empty edit changes nothing |
| AllocationModel.PatchKeepsValid | backend/controllers/allocationController.js:190-194 | an edit that passes the update validators keeps a valid allocation valid |
| MaintenanceModel.PreSave | backend/models/Maintenance.js:141-144 | after the save hook the total cost is the cost plus the labour cost, and nothing else changes |
| MaintenanceModel.PreSaveValid | backend/models/Maintenance.js:141-144 | the hook's result passes the schema exactly when the document does with any valid total |
| MaintenanceModel.PreSaveIdempotent | backend/models/Maintenance.js:141-144 | running the hook twice is running it once |
| MaintenanceModel.OrZero | backend/controllers/maintenanceController.js:130-131 | `x \|\| 0`: an absent cost becomes 0 |
| MaintenanceModel.CycleOrDefault | backend/controllers/maintenanceController.js:133 | `x \|\| 365`: the cycle is never 0, and any non-zero value given is kept |
| MaintenanceModel.NewMaintenance | backend/controllers/maintenanceController.js:119-135 | a new job links asset, technician and requester, starts now, has costs defaulting to 0 with a consistent total, priority `normale`, no parts, a non-zero cycle and a pending quality check |
| MaintenanceModel.OnlyInProgressOverdue | backend/models/Maintenance.js:132-138 | a job that is not `en_cours` is never overdue, whatever the clock |
| MaintenanceModel.OverdueStaysOverdue | backend/models/Maintenance.js:132-138 | only a job with a non-zero estimate is overdue, and once overdue it stays overdue as the clock advances |
| MaintenanceModel.Duration | backend/models/Maintenance.js:124-129 | the duration is the number of started days from the start to the end, or to now while not finished |
| MaintenanceModel.ApplyPatch | backend/controllers/maintenanceController.js:183-187 | an edit may name any stored path: the asset, cost, labour cost, status and total take the named value, and the asset, requester, costs and total keep their own when not named (the total is not recomputed); a named solution is stored trimmed; an empty edit changes nothing |
| MaintenanceModel.PatchKeepsValid | backend/controllers/maintenanceController.js:183-187 | an edit that passes the update validators keeps a valid job valid |
| FaultReportModel.NewFaultReport | backend/controllers/faultReportController.js:10-18 | a new report is `reported` by the caller for the given equipment, with severity `medium` and impact `minor` unless given, and no acknowledger, resolver or technician |
| FaultReportModel.NewFaultReportValid | backend/models/FaultReport.js:3-79 | a new report passes the schema exactly when equipment and fault type are given and the description is non-blank |
| EquipmentRequestModel.RequestTypesAreAssetTypes | backend/models/EquipmentRequest.js:9-13 | every kind a request can name is an asset type, and telephones and tablets cannot be requested |
| EquipmentRequestModel.NewRequest | backend/controllers/equipmentRequestController.js:10-17 | a new request is `pending`, by the caller, dated now, with priority `normale` unless given, and no approver or asset |
| ChatbotModel.SessionIdFor | backend/controllers/chatbotController.js:17 | a session identifier is `session_` followed by more text |
| ChatbotModel.SessionIdInjective | backend/controllers/chatbotController.js:17 | two sessions get the same identifier only for the same user at the same millisecond |
| ChatbotModel.NewSession | backend/controllers/chatbotController.js:15-23 | a new session belongs to the caller, is active, has no messages, records the caller's role and no task, and passes the schema |
| AllocationController.OwnerCheck | backend/controllers/allocationController.js:375-381 | staff may act on any allocation, other users only on their own, and a record with no user makes the handler fail |
| AllocationController.TargetUser | backend/controllers/allocationController.js:105 | the allocation is for the body's user only when an administrator names one, for the caller otherwise |
| AllocationController.ActiveOfUser | backend/controllers/allocationController.js:108-112 | the duplicate check looks for active allocations of this asset held by this user only |
| AllocationController.ApprovedBy | backend/controllers/allocationController.js:235-238 | an approval records the approver and the time, makes the allocation `active`, keeps asset and user, and keeps it valid exactly when it was |
| AllocationController.RejectedBy | backend/controllers/allocationController.js:278-282 | a rejection records the approver and the time, cancels the allocation, which is then never overdue, and keeps it valid exactly when it was |
| AllocationController.Returned | backend/controllers/allocationController.js:330-335 | a return sets status `returned`, the return date and the returner, after which the allocation is never overdue; it validates exactly when the allocation with the given return condition does |
| AllocationController.CancelledBy | backend/controllers/allocationController.js:384-385 | a cancel sets status `cancelled`, after which the allocation is never overdue; approval, asset and user are kept and validity is unchanged |
| AllocationController.CreateOutcome | backend/controllers/allocationController.js:81-161 | a missing asset and one not `disponible` fail with no write. Create succeeds exactly when the target user has no active allocation of the asset and the documents are valid. An administrator's allocation is approved and hands the asset over; anyone else's is pending and leaves the asset alone |
| AllocationController.CreateAllocation | backend/controllers/allocationController.js:81-161 | the handler's answer and new store are those of `CreateOutcome` |
| AllocationController.UpdateOutcome | backend/controllers/allocationController.js:166-207 | an edit, which may name any path of the allocation, succeeds exactly when the allocation exists, the caller is staff or its user, it is `active` and the edit is valid; only that allocation changes, as `ApplyPatch` describes |
| AllocationController.UpdateAllocation | backend/controllers/allocationController.js:166-207 | the handler's answer and new store are those of `UpdateOutcome` |
| AllocationController.ApproveOutcome | backend/controllers/allocationController.js:212-257 | approval succeeds exactly on a pending allocation whose asset exists and is still `disponible`. It approves the allocation and hands the asset to its user |
| AllocationController.ApproveAllocation | backend/controllers/allocationController.js:212-257 | the handler's answer and new store are those of `ApproveOutcome`; only staff may call it |
| AllocationController.RejectOutcome | backend/controllers/allocationController.js:262-295 | rejection succeeds exactly on a pending allocation. It becomes rejected and cancelled, stamped by the caller, with the reason appended to its notes; the asset is untouched |
| AllocationController.RejectAllocation | backend/controllers/allocationController.js:262-295 | the handler's answer and new store are those of `RejectOutcome`; only staff may call it |
| AllocationController.ReturnOutcome | backend/controllers/allocationController.js:300-355 | a non-active allocation fails before the owner check. A return succeeds exactly when the allocation is active, the caller may act on it and its asset exists; the allocation is returned and the asset released |
| AllocationController.ReturnAllocation | backend/controllers/allocationController.js:300-355 | the handler's answer and new store are those of `ReturnOutcome` |
| AllocationController.CancelOutcome | backend/controllers/allocationController.js:360-407 | cancelling succeeds exactly on an active allocation the caller may act on; only the allocation changes, and its asset is left as it was |
| AllocationController.CancelAllocation | backend/controllers/allocationController.js:360-407 | the handler's answer and new store are those of `CancelOutcome` |
| AllocationController.CancelRestoringOutcome | backend/controllers/allocationController.js:388-395 | the intended cancel: the same answer as `CancelOutcome`, plus the asset of the cancelled allocation released |
| AllocationController.CancelAllocationRestoring | backend/controllers/allocationController.js:388-395 | the corrected handler's answer and new store are those of `CancelRestoringOutcome` |
| AllocationController.ApproveTwiceFails | backend/controllers/allocationController.js:220-225 | approving an allocation a second time fails and writes nothing |
| AllocationController.RejectIsFinal | backend/controllers/allocationController.js:271-276 | a rejected allocation can no longer be approved, rejected or returned |
| AllocationController.CreateKeepsAssigneeInvariant | backend/controllers/allocationController.js:129-152 | create keeps "an asset has an assignee exactly when it is `affecté`" |
| AllocationController.ApproveKeepsAssigneeInvariant | backend/controllers/allocationController.js:235-245 | approve keeps "an asset has an assignee exactly when it is `affecté`" |
| AllocationController.ReturnKeepsAssigneeInvariant | backend/controllers/allocationController.js:338-343 | return keeps "an asset has an assignee exactly when it is `affecté`" |
| AllocationController.CancelRestoringKeepsAssigneeInvariant | backend/controllers/allocationController.js:388-395 | the corrected cancel keeps "an asset has an assignee exactly when it is `affecté`" |
| AllocationController.CreateThenReturn | backend/controllers/allocationController.js:81-355 | an administrator's allocation of an available asset, then its return, both succeed and leave the asset released and the allocation returned |
| AllocationController.TwoUsersTwoActiveAllocations | backend/controllers/allocationController.js:108-152 | two different non-administrators can each hold an active allocation of the same asset, because the duplicate check is per user |
| AllocationController.UserCreateSucceeds | backend/controllers/allocationController.js:129-152 | a non-administrator's create that passes its checks only adds one pending allocation for the caller |
| AllocationController.AdminCreateSucceeds | backend/controllers/allocationController.js:129-145 | an administrator's create that passes its checks on a valid asset adds one approved allocation and hands the asset to its user, and releasing that asset later gives back the original |
| AllocationController.ActiveAfterTwoInserts | backend/controllers/allocationController.js:108-112 | after two active allocations of an asset that had none, exactly those two are active |
| AllocationController.CancelLeavesAssetAssigned | backend/controllers/allocationController.js:384-395 | as written, cancelling the only active allocation of an `affecté` asset leaves it `affecté` with no active allocation |
| AllocationController.CancelRestoringReleases | backend/controllers/allocationController.js:388-395 | the corrected cancel leaves the asset `disponible` and unassigned |
| AllocationController.OwnerEditApprovesOwnRequest | backend/controllers/allocationController.js:174-194 | a user who has just requested an asset can approve the request through an edit naming only `approvalStatus`; the allocation stays `active` and the asset stays available and unchanged |
| MaintenanceController.Saved | backend/models/Maintenance.js:141-144 | a save succeeds exactly on a valid job and stores it with the total recomputed |
| MaintenanceController.Opened | backend/controllers/maintenanceController.js:117-135 | a technician's job is theirs and `en_cours`; anyone else's goes to the named technician and is `en_attente`; either way it is open, for the asset, requested by the caller |
| MaintenanceController.CreateOutcome | backend/controllers/maintenanceController.js:81-154 | create succeeds exactly when the asset exists, has no open job and both documents are valid. The job is stored and the asset set to `maintenance` whatever its status, assignee kept. An invalid job writes nothing; any other failure writes either nothing or exactly the new job, which a failing asset save leaves stored |
| MaintenanceController.CreateMaintenance | backend/controllers/maintenanceController.js:81-154 | the handler's answer and new store are those of `CreateOutcome` |
| MaintenanceController.UpdateOutcome | backend/controllers/maintenanceController.js:159-200 | an edit, which may name any path of the job, succeeds exactly when the job exists, the caller is staff or its requester, it is not `terminee` and the edit is valid; only that job changes, as `ApplyPatch` describes, and the total is not recomputed |
| MaintenanceController.UpdateMaintenance | backend/controllers/maintenanceController.js:159-200 | the handler's answer and new store are those of `UpdateOutcome` |
| MaintenanceController.UpdateRecomputingOutcome | backend/controllers/maintenanceController.js:183-187 | the intended edit: the same verdict, with the total recomputed from the new costs |
| MaintenanceController.UpdateMaintenanceRecomputing | backend/controllers/maintenanceController.js:183-187 | the corrected handler's answer and new store are those of `UpdateRecomputingOutcome` |
| MaintenanceController.Started | backend/controllers/maintenanceController.js:220-222 | a start makes the job `en_cours` with the caller as technician and start date now, keeps asset and costs, validates exactly when the job with that technician does, and a job with a positive estimate is not overdue at its start |
| MaintenanceController.StartOutcome | backend/controllers/maintenanceController.js:205-235 | start succeeds exactly on an `en_attente` job; it becomes `en_cours` with the caller as technician and start date now |
| MaintenanceController.StartMaintenance | backend/controllers/maintenanceController.js:205-235 | the handler's answer and new store are those of `StartOutcome`; only staff may call it |
| MaintenanceController.Completed | backend/controllers/maintenanceController.js:266-275 | a completed job is `terminee`, ends now, carries the supplied costs and stores the solution trimmed, as the schema's setter does |
| MaintenanceController.Serviced | backend/controllers/maintenanceController.js:280-284 | a serviced asset is `disponible` and was maintained now; its next date changes only when one is supplied; its assignee is kept |
| MaintenanceController.CompleteOutcome | backend/controllers/maintenanceController.js:240-297 | completion succeeds exactly on an `en_cours` job with both costs supplied and an existing asset. The job is finished with total = cost + labour, and the asset serviced. Missing costs write nothing |
| MaintenanceController.CompleteMaintenance | backend/controllers/maintenanceController.js:240-297 | the handler's answer and new store are those of `CompleteOutcome`; only staff may call it |
| MaintenanceController.CancelOutcome | backend/controllers/maintenanceController.js:302-339 | cancelling succeeds on any job not `terminee`, an `annulee` one included; only the job changes, and its asset is left as it was |
| MaintenanceController.CancelMaintenance | backend/controllers/maintenanceController.js:302-339 | the handler's answer and new store are those of `CancelOutcome`; only staff may call it |
| MaintenanceController.CancelRestoringOutcome | backend/controllers/maintenanceController.js:322-327 | the intended cancel: the same answer, and cancelling an `en_cours` job makes its asset `disponible` |
| MaintenanceController.CancelMaintenanceRestoring | backend/controllers/maintenanceController.js:322-327 | the corrected handler's answer and new store are those of `CancelRestoringOutcome` |
| MaintenanceController.CreateKeepsOneOpen | backend/controllers/maintenanceController.js:105-115 | create keeps at most one open job per asset |
| MaintenanceController.StartKeepsOneOpen | backend/controllers/maintenanceController.js:213-222 | start keeps at most one open job per asset |
| MaintenanceController.CompleteKeepsOneOpen | backend/controllers/maintenanceController.js:259-276 | complete keeps at most one open job per asset |
| MaintenanceController.CancelKeepsOneOpen | backend/controllers/maintenanceController.js:311-320 | cancel keeps at most one open job per asset |
| MaintenanceController.UpdateCanReopen | backend/controllers/maintenanceController.js:176-187 | an edit can set a cancelled job back to `en_attente` beside another open job of the same asset, breaking "one open job per asset" |
| MaintenanceController.CreateKeepsTotals | backend/models/Maintenance.js:141-144 | create keeps every stored total equal to cost plus labour |
| MaintenanceController.StartKeepsTotals | backend/models/Maintenance.js:141-144 | start keeps every stored total equal to cost plus labour |
| MaintenanceController.CompleteKeepsTotals | backend/models/Maintenance.js:141-144 | complete keeps every stored total equal to cost plus labour |
| MaintenanceController.CancelKeepsTotals | backend/models/Maintenance.js:141-144 | cancel keeps every stored total equal to cost plus labour |
| MaintenanceController.UpdateLeavesStaleTotal | backend/controllers/maintenanceController.js:183-187 | as written, an edit that changes the cost leaves a stored total that no longer equals cost plus labour |
| MaintenanceController.UpdateRecomputingKeepsTotals | backend/controllers/maintenanceController.js:183-187 | the corrected edit keeps every stored total equal to cost plus labour |
| MaintenanceController.CancelLeavesAssetInMaintenance | backend/controllers/maintenanceController.js:318-327 | as written, a technician's job created and then cancelled leaves its asset in `maintenance` with no open job |
| MaintenanceController.CancelRestoringReleases | backend/controllers/maintenanceController.js:322-327 | with the corrected cancel, the same sequence leaves the asset `disponible` |
| MaintenanceController.CreateKeepsAssigneeInvariantIff | backend/controllers/maintenanceController.js:137-139 | opening a job keeps the invariant "assignee exactly when `affecté`" exactly when it does not succeed on an asset with an assignee |
| MaintenanceController.StartThenComplete | backend/controllers/maintenanceController.js:205-297 | a started then completed job is `terminee` with the starter as technician, both dates, total = cost + labour, and its asset serviced |
| MaterielController.Normalize | backend/controllers/materielController.js:111-160 | a falsy value is returned as is; otherwise the trimmed, lower-cased key selects its label, and an unknown key returns the original untrimmed value |
| MaterielController.NormalizeLabelOrUnchanged | backend/controllers/materielController.js:111-160 | a normaliser returns either its input or a listed label |
| MaterielController.NormalizeIdempotent | backend/controllers/materielController.js:111-160 | a normaliser whose labels map to themselves is idempotent |
| MaterielController.AliasesAreLabels | backend/controllers/materielController.js:111-160 | every alias maps to a label of the asset's type, condition or category enumeration |
| MaterielController.LabelFixed | backend/controllers/materielController.js:131 | a label with no outer white space whose lower-case form is its own alias normalises to itself |
| MaterielController.TypeLabelsFixed | backend/models/Materiel.js:9-13 | every asset type label normalises to itself |
| MaterielController.ConditionLabelsFixed | backend/models/Materiel.js:77-81 | every condition label normalises to itself |
| MaterielController.CategoryLabelsFixed | backend/models/Materiel.js:72-76 | every category label normalises to itself |
| MaterielController.NormalizersSound | backend/controllers/materielController.js:111-160 | each normaliser returns its input or a member of its enumeration, and is idempotent |
| MaterielController.Normalized | backend/controllers/materielController.js:172-180 | create normalises type, category and condition and passes every other field through |
| MaterielController.InsertOutcome | backend/controllers/materielController.js:163-184 | a truthy serial already carried fails with no write; the insert succeeds exactly when the unique index has no clash and the document is valid |
| MaterielController.Insert | backend/controllers/materielController.js:163-184 | the insertion's answer and new store are those of `InsertOutcome` |
| MaterielController.CreateOutcome | backend/controllers/materielController.js:92-197 | create rejects a truthy serial already in use, otherwise succeeds exactly when the index has no clash and the normalised asset is valid, storing it under the next identifier |
| MaterielController.CreateMateriel | backend/controllers/materielController.js:92-197 | the handler's answer and new store are those of `CreateOutcome` |
| MaterielController.UpdateOutcome | backend/controllers/materielController.js:202-235 | an edit, which may name any path of the asset including its status and assignee, succeeds exactly when the asset exists, a changed truthy serial is not in use, the edit is valid and the index has no clash; only that asset changes, as `ApplyPatch` describes |
| MaterielController.UpdateMateriel | backend/controllers/materielController.js:202-235 | the handler's answer and new store are those of `UpdateOutcome`; only staff may call it |
| MaterielController.CreateKeepsSerialsUnique | backend/models/Materiel.js:18-22 | create keeps every present serial carried by one asset only |
| MaterielController.UpdateKeepsSerialsUnique | backend/models/Materiel.js:18-22 | an edit keeps every present serial carried by one asset only |
| MaterielController.DeleteOutcome | backend/controllers/materielController.js:240-279 | delete succeeds exactly when the asset exists with no active allocation and no open job; it removes only that asset |
| MaterielController.DeleteMateriel | backend/controllers/materielController.js:240-279 | the handler's answer and new store are those of `DeleteOutcome`; only administrators may call it |
| MaterielController.DeleteLeavesNoLiveReference | backend/controllers/materielController.js:249-272 | after a delete no active allocation and no open job refers to the removed asset |
| MaterielController.AssignedAllocation | backend/controllers/materielController.js:306-314 | a direct assignment records an active, pending allocation of the asset to the body's user |
| MaterielController.AssignOutcome | backend/controllers/materielController.js:284-325 | assignment succeeds exactly on an existing `disponible` asset with valid documents; the asset is handed over and an allocation stored. A rejected hand-over writes nothing; any other failure writes either nothing or exactly the handed-over asset, which a failing allocation create leaves stored |
| MaterielController.AssignMateriel | backend/controllers/materielController.js:284-325 | the handler's answer and new store are those of `AssignOutcome`; only staff may call it |
| Common.Keep | backend/controllers/materielController.js:354-361 | an update document's absent field keeps the stored value, a present one replaces it |
| MaterielController.ClosedByReturn | backend/controllers/materielController.js:354-361 | the closed allocation is `returned` now by the caller and keeps its asset and user |
| MaterielController.ReturnOutcome | backend/controllers/materielController.js:330-374 | return succeeds exactly on an existing `affecté` asset. The asset is released, and the earliest active allocation of it, if any, is closed |
| MaterielController.ReturnMateriel | backend/controllers/materielController.js:330-374 | the handler's answer and new store are those of `ReturnOutcome`; only staff may call it |
| MaterielController.AssignKeepsAssigneeInvariant | backend/controllers/materielController.js:300-303 | assigning to a named user keeps "an asset has an assignee exactly when it is `affecté`" |
| MaterielController.ReturnKeepsAssigneeInvariant | backend/controllers/materielController.js:346-349 | return keeps "an asset has an assignee exactly when it is `affecté`" |
| MaterielController.AssignWithoutUserLeavesOrphan | backend/controllers/materielController.js:299-314 | an assignment without a user fails yet leaves the asset `affecté` to nobody |
| MaterielController.EditCanAffectWithoutAssignee | backend/controllers/materielController.js:218-222 | an edit naming only the status makes an unassigned asset `affecté` with no assignee and no allocation, breaking the invariant |
| MaterielController.AssignThenReturn | backend/controllers/materielController.js:284-374 | an assignment followed by a return succeeds, releases the asset and closes the allocation just made |
| MaterielController.MarkedIrreparable | backend/controllers/materielController.js:476-483 | a marked asset is `irreparable`, keeps its assignee and records the caller and the time in its irreparable record, a record the schema as written does not hold |
| MaterielController.MarkIrreparableOutcome | backend/controllers/materielController.js:459-525 | as written, marking always fails with no write: a missing asset is not found, and any other save is rejected by the status enumeration |
| MaterielController.MarkIrreparable | backend/controllers/materielController.js:459-525 | the handler's answer and new store are those of `MarkIrreparableOutcome` |
| MaterielController.ClosedAsIrreparable | backend/controllers/materielController.js:489-498 | the closed allocation is `returned` by the caller with return condition `irreparable` |
| MaterielController.EndedAsIrreparable | backend/controllers/materielController.js:507-512 | the ended job is `terminee` now with actual duration 0, for the same asset and costs, and carries the irreparable note trimmed, as the schema's setter stores it |
| MaterielController.AfterAllocationStep | backend/controllers/materielController.js:487-499 | with an assignee and an active allocation, the earliest active allocation is closed as irreparable; otherwise nothing changes |
| MaterielController.AfterMaintenanceStep | backend/controllers/materielController.js:501-513 | with no open job nothing changes; otherwise only jobs are rewritten, none added or removed |
| MaterielController.MarkIrreparableWidenedOutcome | backend/controllers/materielController.js:459-525 | with `irreparable` admitted, marking succeeds only on an asset not yet irreparable and stores the marked asset |
| MaterielController.MarkIrreparableWidened | backend/controllers/materielController.js:459-525 | the handler's answer and new store are those of `MarkIrreparableWidenedOutcome` |
| MaterielController.CloseAllocationOfIrreparable | backend/controllers/materielController.js:487-499 | the allocation step's new store is that of `AfterAllocationStep` |
| MaterielController.EndJobOfIrreparable | backend/controllers/materielController.js:501-513 | the maintenance step's new store is that of `AfterMaintenanceStep` |
| MaterielController.MarkIrreparableEndsMaintenance | backend/controllers/materielController.js:501-513 | after a successful marking the asset has no open job left |
| MaterielController.MarkIrreparableClosesAllocation | backend/controllers/materielController.js:487-499 | after a successful marking of an assigned asset with at most one active allocation, none remains active |
| EquipmentRequestController.CreateOutcome | backend/controllers/equipmentRequestController.js:6-32 | create succeeds exactly on a valid request; it is pending, by the caller, with no approver or asset, stored under the next identifier. A failure writes nothing |
| EquipmentRequestController.CreateRequest | backend/controllers/equipmentRequestController.js:6-32 | the handler's answer and new store are those of `CreateOutcome` |
| EquipmentRequestController.CreateSucceedsIff | backend/models/EquipmentRequest.js:3-65 | a request is accepted exactly when its type is one of the eight, description and purpose are non-blank and a needed-by date is given |
| EquipmentRequestController.Stamped | backend/controllers/equipmentRequestController.js:90-99 | the status is replaced and the caller stamped as approver whatever the status; notes and reason change only when given; the asset is recorded only on an approval naming one |
| EquipmentRequestController.Handover | backend/controllers/equipmentRequestController.js:97-107 | only an approval naming an existing asset writes it, handing it to the requester; nothing else changes |
| EquipmentRequestController.UpdateStatusOutcome | backend/controllers/equipmentRequestController.js:77-124 | a missing request is not found. Any listed status is accepted whatever the current one. The asset hand-over happens before the request is saved, so it stays even when the save fails |
| EquipmentRequestController.UpdateRequestStatus | backend/controllers/equipmentRequestController.js:77-124 | the handler's answer and new store are those of `UpdateStatusOutcome`; only technical managers may call it |
| EquipmentRequestController.AnyStatusFollowsAny | backend/controllers/equipmentRequestController.js:90 | on a valid request every listed status is accepted, whatever the current one |
| EquipmentRequestController.UpdateStatusKeepsAssigneeInvariant | backend/controllers/equipmentRequestController.js:102-106 | a status update keeps "an asset has an assignee exactly when it is `affecté`" |
| EquipmentRequestController.AvailableEquipment | backend/controllers/equipmentRequestController.js:131-134 | exactly the `disponible` assets, of the given type when a type is given |
| EquipmentRequestController.ApprovalWithdrawsAsset | backend/controllers/equipmentRequestController.js:97-107 | approving with an existing asset assigns it to the requester and removes it from the available equipment, with no availability check |
| EquipmentRequestController.NoGrantNoAssetWrite | backend/controllers/equipmentRequestController.js:97 | an update that is not an approval naming an asset never writes an asset |
| EquipmentRequestController.FailedApprovalStillHandsOver | backend/controllers/equipmentRequestController.js:102-109 | an approval of an invalid request fails yet leaves the asset `affecté` |
| FaultReportController.Withdrawn | backend/controllers/faultReportController.js:24-26 | a withdrawn asset is `hors_service` and otherwise unchanged |
| FaultReportController.CreateOutcome | backend/controllers/faultReportController.js:6-39 | create succeeds exactly on a valid report, stored under the next identifier. A critical report on an existing asset withdraws that asset; otherwise no asset changes. A failure writes nothing |
| FaultReportController.CreateFaultReport | backend/controllers/faultReportController.js:6-39 | the handler's answer and new store are those of `CreateOutcome` |
| FaultReportController.CreateKeepsAssigneeInvariantIff | backend/controllers/faultReportController.js:24-26 | a report keeps "an asset has an assignee exactly when it is `affecté`" unless it is a critical report on an assigned asset, which always breaks it |
| FaultReportController.Revised | backend/controllers/faultReportController.js:120-138 | the status is replaced. `acknowledged` stamps the acknowledger; `resolved` stamps the resolver and replaces the resolution. A named technician is assigned now, and notes change only when given |
| FaultReportController.UpdateOutcome | backend/controllers/faultReportController.js:107-156 | a missing report is not found; any listed status is accepted; a failure writes nothing, and a success rewrites only that report |
| FaultReportController.UpdateFaultReport | backend/controllers/faultReportController.js:107-156 | the handler's answer and new store are those of `UpdateOutcome` |
| FaultReportController.AnyFaultStatusFollowsAny | backend/controllers/faultReportController.js:120 | on a valid report every listed status is accepted, whatever the current one |
| FaultReportController.ResolvingWithoutTextErases | backend/controllers/faultReportController.js:132-136 | resolving without a resolution text succeeds and erases any earlier resolution |
| UserController.Public | backend/controllers/userController.js:67 | the account as answered is the stored one without its credential |
| UserController.GetUser | backend/controllers/userController.js:58-94 | reading succeeds exactly for an administrator or the user themself on an existing account; it answers the account without credential, the user's allocations and the jobs they requested |
| UserController.Technicians | backend/controllers/userController.js:378-389 | exactly the users whose role is `technicien` |
| UserController.EmailHolders | backend/controllers/userController.js:104 | the users with the given email, or every user when no email is given |
| UserController.NewUser | backend/controllers/userController.js:110-115 | a new account has the given name, email and credential, and role `utilisateur` unless one is given |
| UserController.CreateOutcome | backend/controllers/userController.js:99-133 | an email already held is a conflict; otherwise create succeeds exactly when the schema accepts the account, which is stored under the next identifier |
| UserController.CreateUser | backend/controllers/userController.js:99-133 | the handler's answer and new store are those of `CreateOutcome`; only administrators may call it |
| UserController.CreatedEmailIsUnique | backend/controllers/userController.js:104-108 | after a create the new account is the only holder of its email; with no email, a create succeeds only on an empty user table |
| UserController.Stripped | backend/controllers/userController.js:154-156 | a non-administrator's edit loses its role field; an administrator's is kept whole |
| UserController.Patched | backend/controllers/userController.js:158-163 | an edit replaces the name, email, credential and role it names and keeps the rest |
| UserController.UpdateOutcome | backend/controllers/userController.js:138-176 | an edit is forbidden unless the caller is an administrator or the user; a missing user is not found; otherwise it succeeds exactly when the schema accepts the result |
| UserController.UpdateUser | backend/controllers/userController.js:138-176 | the handler's answer and new store are those of `UpdateOutcome` |
| UserController.UpdateKeepsRoleUnlessAdmin | backend/controllers/userController.js:141-156 | a non-administrator can edit only their own account and never changes its role; other accounts stay as they were |
| UserController.ActiveAllocationsHeld | backend/controllers/userController.js:190-193 | exactly the active allocations held by the user |
| UserController.OpenMaintenancesAsked | backend/controllers/userController.js:201-204 | exactly the open jobs the user requested |
| UserController.DeleteOutcome | backend/controllers/userController.js:181-220 | delete succeeds exactly on an existing user with no active allocation and no open requested job; a user still referenced is in use; only that account is removed |
| UserController.DeleteUser | backend/controllers/userController.js:181-220 | the handler's answer and new store are those of `DeleteOutcome`; only administrators may call it |
| UserController.DeleteLeavesNoActiveReference | backend/controllers/userController.js:190-211 | after a delete no active allocation and no open job refers to the removed user |
| UserController.PasswordCheck | backend/controllers/userController.js:274-286 | a password change passes exactly when the current password is given and matches; no change always passes |
| UserController.Edited | backend/controllers/userController.js:270-288 | name, email and credential change only when given truthy values; the role never changes |
| UserController.EditProfileOutcome | backend/controllers/userController.js:259-309 | the caller's account must exist; the edit succeeds exactly when the password check passes and the schema accepts the result; only the caller's account changes |
| UserController.EditProfile | backend/controllers/userController.js:259-309 | the handler's answer and new store are those of `EditProfileOutcome` |
| UserController.CredentialNeedsCurrentPassword | backend/controllers/userController.js:274-288 | whenever the stored credential changes, the right current password was supplied and the new one is the one given |
| ChatbotController.RoleKeys | backend/controllers/chatbotController.js:339-355 | no handler has an entry for plain users or media employees |
| ChatbotController.Answer | backend/controllers/chatbotController.js:278-552 | each handler answers its own intent, with the caller's role entry when it has one and the default entry otherwise |
| ChatbotController.PlainRolesGetDefaults | backend/controllers/chatbotController.js:349-354 | plain users and media employees always get a default or single entry |
| ChatbotController.AnswerTasks | backend/controllers/chatbotController.js:320-355 | no handler sets the task `equipment_request`; only the fault handler sets `fault_report`; only the maintenance handler, for technicians, sets `maintenance` |
| ChatbotController.FirstHit | backend/controllers/chatbotController.js:136-208 | the position of the first keyword list the message matches, every earlier list missing it |
| ChatbotController.FollowUp | backend/controllers/chatbotController.js:241-275 | a follow-up answers exactly when the task is an equipment or fault request and the message agrees, or the task is maintenance and the message asks about planned work |
| ChatbotController.BotReply | backend/controllers/chatbotController.js:103-238 | a follow-up answer, when there is one, wins; otherwise the message is routed by keywords; the reply is always a canned answer |
| ChatbotController.RoutedIsFirstMatch | backend/controllers/chatbotController.js:136-237 | a routed message gets an intent exactly when its keywords match and no earlier list matches |
| ChatbotController.RoutedFallbackIff | backend/controllers/chatbotController.js:534-537 | the fallback answers exactly when no keyword list matches |
| ChatbotController.RapportRoutesToFault | backend/controllers/chatbotController.js:110-112 | a message containing `rapport` and no equipment word goes to the fault handler, not statistics |
| ChatbotController.ActiveSessionsOf | backend/controllers/chatbotController.js:9-12 | exactly the caller's active sessions |
| ChatbotController.GetSessionOutcome | backend/controllers/chatbotController.js:7-41 | an existing active session of the caller is answered with no write; only when none exists is a new one created |
| ChatbotController.GetSession | backend/controllers/chatbotController.js:7-41 | the handler's answer and new store are those of `GetSessionOutcome` |
| ChatbotController.GetSessionIdempotent | backend/controllers/chatbotController.js:9-24 | asking for a session again answers the same session and writes nothing |
| ChatbotController.MatchingSessions | backend/controllers/chatbotController.js:48-51 | the caller's sessions with the given identifier, or all of the caller's sessions when none is given |
| ChatbotController.Merged | backend/controllers/chatbotController.js:79-81 | the reply's task, when it has one, replaces the session's task; role and last action are kept |
| ChatbotController.Conversed | backend/controllers/chatbotController.js:60-83 | the session gains the user message and the reply in that order, merges the context and is stamped now |
| ChatbotController.ConversedValid | backend/models/Chatbot.js:13-22 | a valid session stays valid after a conversation turn exactly when the message is non-empty |
| ChatbotController.SendOutcome | backend/controllers/chatbotController.js:44-100 | no matching session is not found; otherwise the turn succeeds exactly when a message is given and the session stays valid, and only that session changes |
| ChatbotController.SendMessage | backend/controllers/chatbotController.js:44-100 | the handler's answer and new store are those of `SendOutcome` |
| ChatbotController.SendAppendsTwo | backend/controllers/chatbotController.js:60-76 | a successful turn adds exactly two messages, the user's then the assistant's; it succeeds exactly on a non-empty message |
| ChatbotController.NoReplySetsEquipmentTask | backend/controllers/chatbotController.js:320-330 | no reply ever sets the task `equipment_request` |
| ChatbotController.SessionsKeepNoEquipmentTask | backend/controllers/chatbotController.js:7-100 | no session handler ever stores the task `equipment_request` |
| ChatbotController.EquipmentFollowUpNeverAnswers | backend/controllers/chatbotController.js:245-252 | as written, the equipment-request guidance is never given |
| ChatbotController.BotReplyCorrected | backend/controllers/chatbotController.js:320-330 | the intended equipment reply sets the task `equipment_request`; every other reply is unchanged |
| ChatbotController.CorrectedEquipmentFollowUpAnswers | backend/controllers/chatbotController.js:245-252 | with the corrected reply, agreeing after an equipment answer gives the equipment-request guidance |

Some members are definitions rather than claims, and what they decide is stated by the rows of the members that use them:

- the schema validators `MaterielModel.SchemaValid`, `AllocationModel.SchemaValid`, `MaintenanceModel.SchemaValid`, `FaultReportModel.SchemaValid`, `EquipmentRequestModel.SchemaValid` and `ChatbotModel.SchemaValid` (backend/models/*.js), through the `New...Valid` and `PatchKeepsValid` lemmas and every outcome function whose success verdict names them;
- the guard `MaintenanceController.MayEdit` (backend/controllers/maintenanceController.js:168-170), through `MaintenanceController.UpdateOutcome`;
- the guard `UserController.MayAccess` (backend/controllers/userController.js:61 and :141), through `UserController.GetUser` and `UserController.UpdateOutcome`;
- the test `EquipmentRequestController.Grants` (backend/controllers/equipmentRequestController.js:97), through `EquipmentRequestController.Stamped` and `EquipmentRequestController.Handover`;
- the virtuals `AllocationModel.IsOverdue` and `MaintenanceModel.IsOverdue`, through the `OverdueStaysOverdue` lemmas and the transition functions that end an allocation.

## Left out

- HTTP status codes and message texts are abstracted into `Common.Error`. A rejected save is `ValidationFailed` (400) only in the nine create and edit handlers, `updateMyProfile` included, whose catch tests for a `ValidationError`; every other handler answers any thrown error with 500, so its rejected saves are `ServerError`.
- Floating-point numbers: costs, prices and durations are integers. Dates are integer milliseconds passed in as `now`.
- Every list, search, statistics and dashboard handler is left out: `getMateriels`, `getAllocations`, `getUserAllocations`, `getMaintenanceStats`, `getUsers`, `getMyProfile`, `getUserStats`, `getUserDashboard`, `getChatbotStats` and the like. They are read-only aggregations with sort, pagination and rounding.
- `populate`, field selection and sorting of answers are not modelled. `UserController.GetUser` answers every allocation and job of the user, not the ten most recent.
- Routing, authentication and the JWT middleware are not modelled. A route's role gate is the handler method's `requires`. The `markIrreparable` handler has no route and is modelled without a gate.
- The user schema (`models/User.js`) is not part of this model. Its validators are the parameter `accepts` of the user handlers. Password hashing and `matchPassword` are a plain comparison of stored credentials.
- Concurrency: each handler is one atomic sequence of saves. A failure between two saves is modelled, but interleaving with other requests is not.
- Mongo identifiers are integers from a counter. A malformed identifier, a failed cast and a dangling reference in an update are not modelled.
- Enumerated inputs are datatypes. A value outside the enumeration can be given only for the status of a request or fault-report update (`Common.EnumInput`). For the other enumerated paths (priority, severity, role, maintenance type, patch statuses) such a value cannot be represented. Free-text enumerations (asset type, condition, category) are strings checked against their label sets.
- `JsText.ToLower` maps ASCII and Latin-1 letters only. JavaScript's `toLowerCase` covers all of Unicode.
- The chatbot's reply texts are abstracted to the handler and the role entry that produced them.
- MaterielModel.ApplyPatch: the schema paths `warrantyExpiry`, `supplier` and `image` are not part of the asset record, so an edit naming them is modelled as one that does not.
- MaintenanceModel.ApplyPatch: the schema paths `images`, `documents`, `approvedBy` and `approvalDate` are not part of the job record, so an edit naming them is modelled as one that does not.
- MaterielModel.ApplyPatch, AllocationModel.ApplyPatch, MaintenanceModel.ApplyPatch: an edit that names a path with `null`, which unsets the path or fails a required validator, is not modelled; a named path always carries a value.
- Paths outside a schema, which an update drops, are not represented in the edit types.
- `MaintenanceController.CompleteOutcome`: a completion without a cost or labour cost is modelled as failing with no write. The handler assigns `undefined`, and the hook's sum is not a number.
- `MaterielController.ReturnOutcome`: the allocation update has no validators, so the model does not check the return condition against its enumeration.
- `ChatbotController.GetSessionOutcome`: when several active sessions exist, the contract says only that the answer is one of the caller's active sessions, not which one.
- MaterielController.MarkedIrreparable: the handler also sets `irreparableDate`, `irreparableReason`, `reportedBy` and `disposalMethod`, which are not paths of backend/models/Materiel.js, so Mongoose's strict mode would drop them; the widened variant assumes the schema gains these paths together with the `irreparable` status, and stores them in the asset's irreparable record.
- `MaterielController.MarkIrreparableWidenedOutcome`: besides the success verdict and the stored asset, the contract states the cascade on allocations and jobs only through the lemmas `MarkIrreparableEndsMaintenance` and `MarkIrreparableClosesAllocation`.

Some properties one might expect of an equipment register do not hold of the code, and the model says so:

- The invariant "an asset has an assignee exactly when it is `affecté`" is stated only for the handlers that keep it. Creating a maintenance job keeps the assignee while setting `maintenance` (`MaintenanceController.CreateKeepsAssigneeInvariantIff`). A critical fault report does the same with `hors_service` (`FaultReportController.CreateKeepsAssigneeInvariantIff`). A direct assignment without a user breaks it (`MaterielController.AssignWithoutUserLeavesOrphan`).
- Approving an equipment request hands the asset over without checking that it is available (`EquipmentRequestController.ApprovalWithdrawsAsset`).
- The edit handlers pass the request body to the update whole. An edit of an asset can set its status and assignee with no allocation (`MaterielController.EditCanAffectWithoutAssignee`), and the user of an allocation can approve their own request while the asset stays available (`AllocationController.OwnerEditApprovesOwnRequest`).

## Findings

| source | as written | input that shows it | evidently intended | confidence | as-written member | corrected member |
|---|---|---|---|---|---|---|
| backend/controllers/allocationController.js:384-395 | the status is set to `cancelled` before the test for `active`, so the release branch never runs | cancel the only active allocation of an `affecté` asset | the asset of a cancelled active allocation is released | not executed | AllocationController.CancelLeavesAssetAssigned | AllocationController.CancelRestoringReleases |
| backend/controllers/maintenanceController.js:318-327 | the status is set to `annulee` before the test for `en_cours`, so the asset is never made available again | a technician creates a job (asset set to `maintenance`) and cancels it | cancelling a job in progress makes its asset `disponible` | not executed | MaintenanceController.CancelLeavesAssetInMaintenance | MaintenanceController.CancelRestoringReleases |
| backend/controllers/maintenanceController.js:183-187 | the update bypasses the save hook, so `totalCost` keeps its old value | an edit setting `cost` to a new value on a consistent job | the total stays equal to cost plus labour | not executed | MaintenanceController.UpdateLeavesStaleTotal | MaintenanceController.UpdateRecomputingKeepsTotals |
| backend/controllers/materielController.js:476-485 | the status written, `irreparable`, is outside the enumeration of backend/models/Materiel.js:26, so the save always fails | mark any existing asset | marking succeeds and cascades to the allocation and the open job; the corrected model also assumes the schema gains the paths `irreparableDate`, `irreparableReason`, `reportedBy` and `disposalMethod` that the handler sets | not executed | MaterielController.MarkIrreparableOutcome | MaterielController.MarkIrreparableEndsMaintenance |
| backend/controllers/allocationController.js:385 | `notes + line` on a record without notes prefixes the text `undefined` | cancel an allocation that has no notes | only the new line is stored | not executed | Common.AppendNoteToAbsentNotes | Common.AppendNoteCorrected |
| backend/controllers/chatbotController.js:245-252 | the equipment follow-up waits for the task `equipment_request`, which no reply ever sets | answer "oui" after an equipment question | agreeing after an equipment answer gives the request guidance | not executed | ChatbotController.EquipmentFollowUpNeverAnswers | ChatbotController.CorrectedEquipmentFollowUpAnswers |
