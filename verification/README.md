# HubSpot record synchronisation, modelled in Dafny

This project models the record-synchronisation engine of a small CRM
back end. The back end keeps contacts and companies in MongoDB and keeps
them in step with HubSpot. The repository holds two versions of the
engine, and both are modelled.

**The poll-pass engine** (`backend/src`) has these parts:

- **Entity write path.** Create, update and delete contacts and
  companies, with trimming, lower-casing, natural-key duplicate checks,
  and every update marking the record `pending`.
- **Push pass** (`syncLocalToHubSpot`). Contacts are retried within a
  per-record budget; companies fail at once.
- **Pull pass** (`syncHubSpotToLocal`).
  - A remote contact is matched by external id, then by lower-cased
    e-mail. An unmatched contact is created only when it has an e-mail.
  - A remote company is matched by external id only. An unmatched company
    is created only when its name is truthy.
  - A conflict is raised when the matched `pending` local record changed
    after the watermark.
  - The watermarks advance only after both loops.
- **Local full sync** (`runFullSync`), guarded by a single-flight flag,
  and the status counts (`getSyncStatus`).
- **Conflict lifecycle** (`resolveConflict`, `getAllConflicts`).
- **HubSpot payload mapping**, including the name split and its round
  trip.

**The legacy queue-worker engine** (`backend/workers`,
`backend/controllers`, `backend/models`, `backend/services`,
`backend/utils`) has these parts:

- **Controller.** It queues a `local_update` job on every create and
  update.
- **Worker.** It pushes local changes and applies webhooks with
  newer-wins (a strict `>` in both directions) and records conflicts
  keyed by e-mail.
- **Conflict resolution** with the "local" and "hubspot" versions.
- **Request wrapper.** It retries only on HTTP 429.

## How the model is built

- **The database** is one value, `Store.Tables` or
  `LegacyModels.LegacyTables`: sequences of records in insertion order,
  the sync log and an id generator. It is held by a class
  (`Store.Database`, `LegacyModels.LegacyDatabase`) whose methods update
  it in place. Each handler is written twice:
  - a heap-free specification function from the database before the
    request to the reply and the database after it (`CreateSpec`,
    `PushSpec`, `PulledContacts`, `WebhookSpec`, …);
  - an imperative method on the database object, with the source's loops
    and field assignments, whose postcondition is that function.

  The properties are lemmas about the specification functions.
- **Mongoose behaviour the code relies on** is written out:
  - schema setters (trim, lowercase) run on assignment and also on the
    values of query filters;
  - `required` validators reject an empty string on `save`/`create`;
  - the legacy pre-save hook stamps `lastModified` on every `save`;
  - update queries (`findByIdAndUpdate`, `updateOne`) bypass that hook
    and do not run validators;
  - update queries drop keys whose value is `undefined`. This is the
    behaviour from Mongoose 7 on; the source fixes no version. Under
    Mongoose 5 and 6 it needs the `omitUndefined` option. Without it, such
    a key is written as `null`. So with an older Mongoose, keeping the
    HubSpot side of a legacy conflict
    (`LegacyContactController.KeptHubSpot`) would clear the first name,
    last name or phone that HubSpot omits, rather than keep them;
  - a `SyncLog` without an `entityId` fails validation.
- **HubSpot, the clock and faults are parameters.**
  - HubSpot's answers to one pass are a function from a record's
    position to its reply, or a list of fetched records.
  - The legacy worker gets the replies of one job.
  - The request wrapper gets a function from attempt number to reply.
  - Time is a `nat` of milliseconds.
  - The error path of `runFullSync` is a set of record ids whose `save`
    throws.
- **The remote requests** a pass or job sends are returned as values, so
  contracts can say which were sent.

### Where the model follows the code rather than its description

- **`lastModified` never moves in the poll-pass engine.** It is set only
  by its default at creation: no controller, pass or resolution updates
  it. The pull's conflict test (`syncService.js:174-175`) therefore
  compares the creation time with the watermark, and
  `PullPass.LocalEditOverwritten` shows a local edit made after a sync
  being overwritten by the next pull without a conflict.
- **The legacy duplicate check never fires.**
  - `ensureConflictRecord` looks up `{ email, status }`, but the Conflict
    schema has no `email` path.
  - The model assumes strict query filtering is off, the default from
    Mongoose 7 on; the source fixes no Mongoose version. The filter then
    matches no document.
  - So a new pending conflict is created every time
    (`SyncWorker.ConflictsDuplicate`).
  - This conclusion depends on that assumption. Under the Mongoose 6
    default (`strictQuery` follows `strict`), the `email` key would be
    dropped from the filter. The check would then match any pending
    conflict and skip the insert whenever one exists.
- **The returned status aliases the live statistics.** `runFullSync`
  returns the module-level statistics object itself, and the `finally`
  block then clears `isRunning` on that same object. The status in the
  reply therefore shows `isRunning = false`.
- **The pull writes no log for a contact it creates or skips.** The log
  entry is written with `localContact?._id`, which is undefined for a
  contact created from HubSpot or one without an e-mail. The entry then
  fails validation, and the pass's `catch` swallows the error.
- **A contact at the retry limit that is set back to `pending` is never
  pushed again.**
  - Only a successful push resets `retryCount` (`syncService.js:81`).
  - The push selects only pending contacts with `retryCount` below the
    limit (`syncService.js:64-67`).
  - Editing a contact, or keeping the local side of a conflict, marks it
    `pending` but keeps its count. A contact that already reached the
    limit (a `failed` one, say) therefore stays `pending` for good: no
    later push pass picks it up, and HubSpot never receives the local
    data. A contact below the limit is pushed by the next pass.
  - `RetryLimit.UpdatedContactPushedIff` and
    `RetryLimit.KeptLocalPushedIff` state both directions.
- **The two legacy handlers read a missing `updatedAt` differently.**
  - The push reads it as an invalid date, which is later than nothing,
    so it never raises a conflict.
  - The webhook reads it as the current time (`SyncWorker.MissingUpdatedAt`).

## Model

| member | source | states |
|---|---|---|
| Models.NewContact | backend/src/models/Contact.js:20-48 | a contact built with the schema defaults has empty phone and company, no external id, `lastModified` = creation time, status `pending` and retry count 0 |
| Models.NewCompany | backend/src/models/Company.js:14-38 | a company built with the schema defaults has empty domain and industry, no external id, `lastModified` = creation time and status `pending` |
| Models.NewConflict | backend/src/models/Conflict.js:22-48 | a new conflict holds both snapshots and is unresolved, with no resolver, no resolution time and `detectedAt` = creation time |
| Models.NewSyncLog | backend/src/models/SyncLog.js:14-39 | a log entry is accepted exactly when an entity id is given, and then carries the given type, operation, status and message and the current time |
| Models.SaveContact | backend/src/models/Contact.js:9-29 | saving a contact succeeds exactly when its trimmed name and e-mail are non-empty; the stored document has the setters applied (trimmed fields, lower-cased e-mail), and a document already in that form is stored unchanged |
| Models.CastContactNormal | backend/src/models/Contact.js:9-29 | the setters leave every contact in schema form (trimmed name, phone, company; trimmed lower-case e-mail) and leave a stored contact unchanged |
| Models.SaveNormalContact | backend/src/models/Contact.js:9-19 | a contact already in setter form is stored unchanged when name and e-mail are non-empty and rejected otherwise |
| Models.SaveCompany | backend/src/models/Company.js:9-23 | saving a company succeeds exactly when its trimmed name is non-empty; the stored document has trimmed name, domain and industry |
| Models.CastCompanyNormal | backend/src/models/Company.js:9-23 | the company setters put every company in trimmed form and leave a stored company unchanged |
| Models.SaveNormalCompany | backend/src/models/Company.js:9-13 | a company already in setter form is stored unchanged when its name is non-empty and rejected otherwise |
| Store.FindContactByEmail | backend/src/services/syncService.js:217 | the e-mail lookup finds a contact whose e-mail equals the trimmed, lower-cased filter value, and finds none only when no contact has it |
| Store.FindCompanyByDomain | backend/src/controllers/companiesController.js:23 | the domain lookup compares stored domains with the trimmed filter value (the domain setter does not lower-case) |
| Store.FindContactByExternalId | backend/src/services/syncService.js:164 | the lookup by external id finds a contact linked to that HubSpot id, or reports that none is |
| Store.FindCompanyByExternalId | backend/src/services/syncService.js:260 | the same for companies |
| Store.Database.InsertContact | backend/src/models/Contact.js:9-19 | inserting a contact stores the validated document under the next id, or changes nothing when validation fails |
| Store.Database.StoreContact | backend/src/models/Contact.js:9-19 | saving the contact at a position replaces it by the validated document, or changes nothing |
| Store.Database.InsertCompany | backend/src/models/Company.js:9-13 | inserting a company stores the validated document under the next id, or changes nothing |
| Store.Database.StoreCompany | backend/src/models/Company.js:9-13 | saving the company at a position replaces it by the validated document, or changes nothing |
| Store.Database.InsertConflict | backend/src/models/Conflict.js:7-48 | creating a conflict always succeeds and appends it under the next id |
| Store.Database.AppendLog | backend/src/models/SyncLog.js:14-17 | a log entry is appended only when it passed validation |
| ContactsController.TrimmedOrEmpty | backend/src/controllers/contactsController.js:32-33 | an optional field is its trimmed value when truthy and `''` otherwise, and is always trimmed |
| ContactsController.Normalised | backend/src/controllers/contactsController.js:29-35 | a created contact has a trimmed name, a trimmed lower-cased e-mail, phone and company trimmed or `''`, status `pending`, no external id, no retries, and is in schema form |
| ContactsController.CreateOutcome | backend/src/controllers/contactsController.js:16-42 | create succeeds (201) exactly when name and e-mail are not blank and no contact has the lower-cased e-mail; it then appends the normalised contact under a fresh id; every refusal is a 400 and changes nothing |
| ContactsController.CreateUniqueEmail | backend/src/controllers/contactsController.js:24-27 | a created contact never shares its stored e-mail with a contact stored before |
| ContactsController.CreateWellFormed | backend/src/controllers/contactsController.js:29-37 | create keeps every stored record in schema form with ids below the generator |
| ContactsController.InsertNormalised | backend/src/controllers/contactsController.js:29-42 | a validated body is stored as its normalised document under the next id and answered with 201 |
| ContactsController.CreateContact | backend/src/controllers/contactsController.js:11-47 | the handler on the database gives exactly the reply and the new state of `CreateSpec` |
| ContactsController.Edited | backend/src/controllers/contactsController.js:95-102 | an update overwrites name and e-mail only when truthy (trimmed, e-mail lower-cased), phone and company whenever given (trimmed), sets `pending`, and keeps `lastModified`, retry count and external id |
| ContactsController.EditedNormal | backend/src/controllers/contactsController.js:96-99 | the edited contact stays in setter normal form |
| ContactsController.EditedRequired | backend/src/controllers/contactsController.js:96-97 | the edited name and e-mail are non-empty exactly when no truthy but blank name or e-mail was supplied |
| ContactsController.EditedSaves | backend/src/controllers/contactsController.js:96-104 | saving the edited contact stores it unchanged, or fails validation exactly when a blank name or e-mail was supplied |
| ContactsController.UpdateOutcome | backend/src/controllers/contactsController.js:86-113 | an unknown id is a 404; otherwise the update succeeds (200) exactly when validation passes, stores the edited contact in place and marks it `pending`; a failed save is a 500; every failure changes nothing |
| ContactsController.UpdateWellFormed | backend/src/controllers/contactsController.js:96-104 | update keeps the store well formed |
| ContactsController.UpdateContact | backend/src/controllers/contactsController.js:86-114 | the handler on the database gives exactly the reply and the new state of `UpdateSpec` |
| ContactsController.DeleteOutcome | backend/src/controllers/contactsController.js:120-133 | delete succeeds exactly when a contact has the id, and then removes the first contact with that id: the contacts before it keep their positions, those after it move up by one, and the rest equal the old contacts less that one as a multiset; an unknown id is a 404 and changes nothing; the id counter and the other collections never change |
| ContactsController.DeleteWellFormed | backend/src/controllers/contactsController.js:122 | delete keeps the store well formed |
| ContactsController.DeleteContact | backend/src/controllers/contactsController.js:120-133 | the handler on the database gives exactly the reply and the new state of `DeleteSpec` |
| CompaniesController.NewFromInput | backend/src/controllers/companiesController.js:30-35 | a created company has a trimmed name, a trimmed lower-cased domain or `''`, a trimmed industry or `''`, status `pending`, and is in schema form |
| CompaniesController.CreateOutcome | backend/src/controllers/companiesController.js:16-42 | create succeeds (201) exactly when the name is not blank and, if a non-blank domain is given, no company matches its lower-cased form; it then appends the normalised company; refusals are 400 and change nothing |
| CompaniesController.CreateUniqueDomain | backend/src/controllers/companiesController.js:22-28 | a non-empty domain given at creation is never shared with a company stored before |
| CompaniesController.CreateWellFormed | backend/src/controllers/companiesController.js:30-37 | create keeps the store well formed |
| CompaniesController.InsertNormalised | backend/src/controllers/companiesController.js:30-42 | a validated body is stored as its normalised document under the next id and answered with 201 |
| CompaniesController.CreateCompany | backend/src/controllers/companiesController.js:11-47 | the handler on the database gives exactly the reply and the new state of `CreateSpec` |
| CompaniesController.Edited | backend/src/controllers/companiesController.js:95-101 | an update overwrites the name only when truthy, domain (lower-cased) and industry whenever given, all trimmed, sets `pending`, and keeps `lastModified` and external id |
| CompaniesController.EditedSaves | backend/src/controllers/companiesController.js:96-103 | saving the edited company stores it unchanged, or fails exactly when a blank name was supplied |
| CompaniesController.UpdateOutcome | backend/src/controllers/companiesController.js:86-112 | an unknown id is a 404; otherwise the update succeeds exactly when the name stays non-empty, stores the edited company and marks it `pending`; a failed save is a 500; failures change nothing |
| CompaniesController.UpdateWellFormed | backend/src/controllers/companiesController.js:96-103 | update keeps the store well formed |
| CompaniesController.UpdateCompany | backend/src/controllers/companiesController.js:86-113 | the handler on the database gives exactly the reply and the new state of `UpdateSpec` |
| ConflictsController.ResolvedFilter | backend/src/controllers/conflictsController.js:17-24 | the `resolved` parameter filters on `true` exactly for `'true'` and on `false` exactly for `'false'`; anything else lists all |
| ConflictsController.Matching | backend/src/controllers/conflictsController.js:19-27 | the filtered list holds exactly the stored conflicts that pass the filter, and every conflict when there is none |
| ConflictsController.InsertNotAfter | backend/src/controllers/conflictsController.js:27 | inserting into a newest-first list adds nothing detected after a bound both sides respect |
| ConflictsController.InsertByDetectedSpec | backend/src/controllers/conflictsController.js:27 | inserting into a newest-first list keeps it newest first and adds exactly the new conflict |
| ConflictsController.SortByDetected | backend/src/controllers/conflictsController.js:27 | sorting by `detectedAt` descending gives a newest-first permutation of its input |
| ConflictsController.ListConflicts | backend/src/controllers/conflictsController.js:14-34 | the list handler returns, newest first, exactly the resolved conflicts for `'true'`, the unresolved ones for `'false'`, and a permutation of all conflicts otherwise |
| ConflictsController.TakeRemoteContact | backend/src/controllers/conflictsController.js:79-83 | "remote" on a contact copies name and e-mail only when truthy, phone and company when defined, sets `synced`, and keeps id, external id, `lastModified` and retry count |
| ConflictsController.TakeRemoteCompany | backend/src/controllers/conflictsController.js:84-88 | "remote" on a company copies the name when truthy, domain and industry when defined, sets `synced`, and keeps id, external id and `lastModified` |
| ConflictsController.Closed | backend/src/controllers/conflictsController.js:98-101 | a closed conflict is resolved, by the chosen side, at the current time, with its identity and snapshots unchanged |
| ConflictsController.RemoteContactSaves | backend/src/controllers/conflictsController.js:79-91 | saving a contact with the remote snapshot copied in succeeds exactly when the snapshot supplies no blank name or e-mail, and stores each copied value in setter form |
| ConflictsController.RemoteCompanySaves | backend/src/controllers/conflictsController.js:84-91 | saving a company with the remote snapshot copied in succeeds exactly when the snapshot supplies no blank name |
| ConflictsController.ContactBranchEffects | backend/src/controllers/conflictsController.js:70-117 | a contact resolution that fails changes nothing; one that succeeds closes the conflict, appends one `conflict_resolved` entry, leaves companies alone and returns the closed conflict |
| ConflictsController.CompanyBranchEffects | backend/src/controllers/conflictsController.js:70-117 | the same for company conflicts, leaving contacts alone |
| ConflictsController.ResolveRejects | backend/src/controllers/conflictsController.js:49-64 | a missing id and a resolution other than `local`/`remote` are 400s before any lookup; an unknown conflict is a 404; an already resolved one is a 400; every refusal changes nothing |
| ConflictsController.ResolveClosesConflict | backend/src/controllers/conflictsController.js:98-117 | a successful resolution was of an open conflict with an accepted choice; it closes exactly that conflict and appends exactly one log entry |
| ConflictsController.ResolveContact | backend/src/controllers/conflictsController.js:67-96 | a missing contact is a 404 with nothing changed; `local` only sets the contact `pending` (no business field, no `lastModified`); `remote` stores the snapshot fields and `synced`, succeeding exactly when the snapshot keeps the required fields |
| ConflictsController.ResolveCompany | backend/src/controllers/conflictsController.js:67-96 | the same for companies |
| ConflictsController.ResolveTwiceFails | backend/src/controllers/conflictsController.js:62-64 | after a successful resolution the same conflict is refused as already resolved, whatever the new choice, and nothing changes |
| ConflictsController.ResolveWellFormed | backend/src/controllers/conflictsController.js:44-122 | resolution keeps the store well formed |
| ConflictsController.ResolveConflict | backend/src/controllers/conflictsController.js:44-122 | the handler on the database gives exactly the reply and the new state of `ResolveSpec` |
| ConflictsController.ResolveContactEntity | backend/src/controllers/conflictsController.js:70-117 | the contact branch on the database matches `ResolveWithContact` |
| ConflictsController.ResolveCompanyEntity | backend/src/controllers/conflictsController.js:70-117 | the company branch on the database matches `ResolveWithCompany` |
| Payloads.NameSplitShape | backend/src/services/hubspotService.js:44-45 | `firstname` (the first space-separated token) holds no space, and is the whole name with an empty `lastname` exactly when the name holds no space |
| Payloads.SplitJoinName | backend/src/services/hubspotService.js:44-45 | `firstname + ' ' + lastname` is the name itself when it holds a space, and the name plus a trailing space otherwise |
| Payloads.NameRoundTrip | backend/src/services/hubspotService.js:44-45 | the pull's join of `firstname` and `lastname` (`syncService.js:167`) gives back exactly `name.trim()` |
| Payloads.CreateContactProperties | backend/src/services/hubspotService.js:42-48 | the create payload holds the e-mail as given (absent when undefined), `firstname` as the text before the first space and `lastname` as the rest, joining back to the trimmed name (two empty strings for a falsy name), and phone and company defaulting to `''` |
| Payloads.UpdateContactProperties | backend/src/services/hubspotService.js:69-77 | the update payload holds `firstname` (the text before the first space) and `lastname` (the rest) exactly when the name is truthy, the e-mail exactly when truthy, and phone and company exactly when defined, each with the given value, and no other key |
| Payloads.CreateCompanyProperties | backend/src/services/hubspotService.js:132-136 | the company create payload is the name as given, with domain and industry defaulting to `''` |
| Payloads.UpdateCompanyProperties | backend/src/services/hubspotService.js:157-161 | the company update payload holds the name exactly when truthy and domain and industry exactly when defined, with their values |
| Payloads.StoredContactPayloads | backend/src/services/hubspotService.js:42-48 | a stored contact is created in HubSpot with all five properties, a non-empty `firstname` and its stored e-mail |
| Payloads.SplitStartsWith | backend/src/services/hubspotService.js:44 | a name not starting with a space has a non-empty first token starting with the name's first character |
| Payloads.RecentlyModifiedQuery | backend/src/services/hubspotService.js:98-112 | the search has one `GTE` filter group on the modified property exactly when a watermark is given, none otherwise, and a limit of 100 |
| Payloads.RecentlyModifiedContactsQuery | backend/src/services/hubspotService.js:95-112 | the contact search filters `lastmodifieddate >= since` only when `since` is given, asks for the six contact properties, limit 100 |
| Payloads.RecentlyModifiedCompaniesQuery | backend/src/services/hubspotService.js:179-195 | the company search filters `hs_lastmodifieddate >= since` only when `since` is given, asks for the four company properties, limit 100 |
| Payloads.AuthorizationHeader | backend/src/services/hubspotService.js:22-28 | a bearer header is added exactly when the token is configured, and carries that token |
| Payloads.UnconfiguredTokens | backend/src/services/hubspotService.js:208-211 | a missing token, an empty one and the placeholder are not configured |
| PushPass.ContactCall | backend/src/services/syncService.js:71-78 | a contact with a truthy external id is updated under that id; any other contact is created; the call carries the contact's fields |
| PushPass.CompanyCall | backend/src/services/syncService.js:118-123 | the same choice for companies |
| PushPass.PushedContactsAt | backend/src/services/syncService.js:64-111 | after the loop has visited `n` positions, each selected contact among them has its push outcome applied and every other contact is unchanged |
| PushPass.PushedCompaniesAt | backend/src/services/syncService.js:114-148 | the same for companies, selecting every `pending` one |
| PushPass.PushOneContact | backend/src/services/syncService.js:79-109 | one attempt saves the contact's outcome in place and appends exactly one log entry |
| PushPass.PushOneCompany | backend/src/services/syncService.js:125-146 | one company attempt saves its outcome and appends exactly one log entry |
| PushPass.VisitPushContact | backend/src/services/syncService.js:69-111 | one loop turn advances the database to the next position and extends the calls made by this contact's call, if selected |
| PushPass.VisitPushCompany | backend/src/services/syncService.js:116-148 | the same for the company loop |
| PushPass.PushContacts | backend/src/services/syncService.js:64-111 | the contact loop leaves the database as the specification of all positions visited and returns exactly the calls for the selected contacts |
| PushPass.PushCompanies | backend/src/services/syncService.js:114-148 | the company loop, likewise |
| PushPass.SyncLocalToHubSpot | backend/src/services/syncService.js:60-149 | the pass on the database gives exactly the state and calls of `PushSpec`, under `parseInt(MAX_RETRY_COUNT) \|\| 3` |
| PushPass.PushSucceeded | backend/src/services/syncService.js:71-82 | a successful push leaves the contact `synced` with retry count 0, keeps its external id if it had one and otherwise takes HubSpot's, drops out of the selection and changes nothing else |
| PushPass.PushFailedContact | backend/src/services/syncService.js:93-100 | a failed push adds exactly 1 to the retry count; the contact becomes `failed` exactly when the count reaches the limit and stays `pending` (and selected) otherwise; nothing else changes |
| PushPass.PushedCompanyFinal | backend/src/services/syncService.js:116-138 | a pushed company ends `synced` exactly on success and `failed` exactly on failure, is never left pending, and only its status and external id change |
| PushPass.NoSecondCreate | backend/src/services/syncService.js:71-77 | after a successful push the next push of the record is an update of the same HubSpot id, whatever was edited since |
| PushPass.RetryExhaustion | backend/src/services/syncService.js:64-67 | a contact whose pushes keep failing is attempted exactly `maxRetry - retryCount` more times, ends `failed` at the limit, and is not selected again |
| PushPass.ContactPushCounts | backend/src/services/syncService.js:69-111 | the contact loop writes exactly one log entry and makes exactly one call per selected contact |
| PushPass.CompanyPushCounts | backend/src/services/syncService.js:116-148 | the company loop writes one log entry and makes one call per pending company |
| PushPass.PushOutcome | backend/src/services/syncService.js:60-149 | the pass applies each record's outcome to exactly the selected records, keeps record counts, conflicts and ids, and writes as many log entries and calls as there are attempts |
| PushPass.PushLeavesOnlyRetries | backend/src/services/syncService.js:93-147 | after the pass no company is pending, and a contact is still selected only if it was, its push failed and its count stayed below the limit |
| PushPass.PushWellFormed | backend/src/services/syncService.js:79-138 | the pass keeps the store well formed |
| PullPass.Prop | backend/src/services/syncService.js:161 | `props.key` is defined exactly when HubSpot sent the key, and is its value |
| PullPass.RaiseContactConflict | backend/src/services/syncService.js:174-204 | the conflict branch adds one unresolved contact conflict with both snapshots and one `conflict_detected` entry, and leaves the contact alone |
| PullPass.SaveWithLog | backend/src/services/syncService.js:208-245 | the matched contact is saved with the remote values and one `pull` entry follows; a save that fails validation changes nothing |
| PullPass.CreateFromRemote | backend/src/services/syncService.js:226-245 | a record with an e-mail and no local match creates a `synced` contact linked to it; the `pull` entry that follows has no entity id and is not written |
| PullPass.PullOneContact | backend/src/services/syncService.js:158-250 | one iteration of the contact loop, as the specification of one record |
| PullPass.PullUnmatchedContact | backend/src/services/syncService.js:215-245 | a record not linked to any contact links the contact with its lower-cased e-mail, or creates one, or (without an e-mail) changes nothing |
| PullPass.RaiseCompanyConflict | backend/src/services/syncService.js:265-285 | the company conflict branch adds one unresolved conflict and writes no log entry |
| PullPass.SaveCompanyFromRemote | backend/src/services/syncService.js:289-293 | the matched company is saved with the remote values, or left unchanged if validation fails |
| PullPass.CreateCompanyFromRemote | backend/src/services/syncService.js:295-304 | a company record with a name and no match creates a `synced` company linked to it |
| PullPass.PullOneCompany | backend/src/services/syncService.js:255-309 | one iteration of the company loop, as the specification of one record |
| PullPass.PullContacts | backend/src/services/syncService.js:156-250 | the contact loop leaves the database as the specification of all records handled in order |
| PullPass.PullCompanies | backend/src/services/syncService.js:253-309 | the company loop, likewise |
| PullPass.RemoteNameTrimmed | backend/src/services/syncService.js:167 | the name built from `firstname` and `lastname` is already trimmed |
| PullPass.PullConflictRule | backend/src/services/syncService.js:170-204 | a linked contact that is `pending` and modified after the watermark (the epoch when none) is not overwritten: contacts and companies stay, one unresolved conflict with the local and remote snapshots and one `conflict_detected` entry are added |
| PullPass.PullUpdateRule | backend/src/services/syncService.js:207-245 | otherwise the linked contact takes the remote name when non-empty, the remote e-mail when truthy, the remote phone and company (or `''`) and becomes `synced`, with one `pull` entry; a blank remote e-mail makes the save fail and nothing changes |
| PullPass.PullLinkRule | backend/src/services/syncService.js:215-225 | a record not linked to any contact but whose lower-cased e-mail matches one links that contact to the HubSpot id, overwrites name, phone and company, and marks it `synced`, with one `pull` entry |
| PullPass.PullCreateRule | backend/src/services/syncService.js:226-235 | with no match at all, one `synced` contact is appended with the next id, the name or `Unknown`, the normalised e-mail and the HubSpot id, and no log entry; a blank e-mail changes nothing |
| PullPass.PullNoEmailRule | backend/src/services/syncService.js:215 | a record with no linked contact and no e-mail changes nothing |
| PullPass.RepeatedPullDuplicatesConflict | backend/src/services/syncService.js:174-177 | pulling the same record twice against an unchanged pending contact records two unresolved conflicts about the same contact: nothing checks for an open one |
| PullPass.LocalEditOverwritten | backend/src/services/syncService.js:174-213 | a contact edited locally after it was last created (its `lastModified` does not move) is pending but raises no conflict, and the pull overwrites its phone and company with the remote values |
| PullPass.PullCompanyConflictRule | backend/src/services/syncService.js:262-286 | a pending company modified after the company watermark gets exactly one unresolved conflict and no other change |
| PullPass.PullCompanyUpdateRule | backend/src/services/syncService.js:288-293 | otherwise the company takes the trimmed remote name when truthy, domain and industry (or `''`), and becomes `synced`; a blank name fails validation and nothing changes; no log entry either way |
| PullPass.PullCompanyCreateRule | backend/src/services/syncService.js:295-304 | an unmatched company record creates one `synced` company only when its name is truthy and not blank; otherwise nothing changes |
| PullPass.PullContactStep | backend/src/services/syncService.js:158-250 | one contact record never touches companies and never removes a contact, conflict or log entry |
| PullPass.PullCompanyStep | backend/src/services/syncService.js:255-309 | one company record never touches contacts or the log and never removes a company or conflict |
| PullPass.PulledContactsFrame | backend/src/services/syncService.js:158-250 | the whole contact loop keeps that frame |
| PullPass.PulledCompaniesFrame | backend/src/services/syncService.js:255-309 | the whole company loop keeps that frame |
| LocalSync.LocalId | backend/src/services/syncService.js:336 | the synthetic external id starts with `local-` and is longer than it |
| LocalSync.ContactStop | backend/src/services/syncService.js:333-346 | the contact loop stops at the first pending contact whose save throws, and at the end when none does |
| LocalSync.CompanyStop | backend/src/services/syncService.js:349-362 | the company loop stops likewise |
| LocalSync.MarkedContactsAt | backend/src/services/syncService.js:334-337 | after visiting `n` positions, a visited pending contact is marked `synced` under `local-<id>` and every other contact is as it was |
| LocalSync.MarkedCompaniesAt | backend/src/services/syncService.js:350-353 | the same for companies |
| LocalSync.MarkOneContact | backend/src/services/syncService.js:335-345 | one iteration marks the contact and appends exactly one `push`/`success` entry about it |
| LocalSync.MarkOneCompany | backend/src/services/syncService.js:351-361 | one iteration marks the company and appends one entry about it |
| LocalSync.VisitContact | backend/src/services/syncService.js:334-346 | one turn either stops (exactly when the pending contact's save throws), changing nothing, or advances the database to the next position |
| LocalSync.VisitCompany | backend/src/services/syncService.js:350-362 | the same for the company loop |
| LocalSync.MarkPendingContacts | backend/src/services/syncService.js:333-346 | the contact loop reports success exactly when no save throws, and leaves the database as the specification of the positions it reached |
| LocalSync.MarkPendingCompanies | backend/src/services/syncService.js:349-362 | the company loop, likewise |
| LocalSync.ContactsQuietPrefix | backend/src/services/syncService.js:333 | contacts that are not pending are neither changed nor logged |
| LocalSync.CompaniesQuietPrefix | backend/src/services/syncService.js:349 | companies that are not pending are neither changed nor logged |
| LocalSync.ContactLogsShape | backend/src/services/syncService.js:339-345 | the contact loop writes one `push`/`success` entry per pending contact visited, each about a contact |
| LocalSync.CompanyLogsShape | backend/src/services/syncService.js:355-361 | the company loop writes one entry per pending company visited, each about a company |
| LocalSync.LocalSyncCompletes | backend/src/services/syncService.js:329-377 | the run completes exactly when no pending record's save throws, and never touches conflicts or ids |
| LocalSync.LocalSyncMarksPending | backend/src/services/syncService.js:332-362 | a completed run marks exactly the pending records, leaves the others as they were, and appends one entry per pending record, contacts first |
| LocalSync.NothingPendingAfter | backend/src/services/syncService.js:332-362 | after a completed run no contact and no company is pending |
| LocalSync.LocalSyncRecordFate | backend/src/services/syncService.js:329-377 | whatever the outcome, every record is either unchanged or a pending record now marked, and the record whose save threw is unchanged |
| LocalSync.LocalSyncIdempotent | backend/src/services/syncService.js:332-362 | a second run after a completed one changes nothing and completes |
| LocalSync.LocalSyncWellFormed | backend/src/services/syncService.js:332-362 | a run keeps the store well formed, whatever its outcome |
| RetryLimit.PendingPushedIff | backend/src/services/syncService.js:64-111 | a `pending` contact is selected exactly when its retry count is below the limit; the pass then applies its push outcome, and otherwise leaves it unchanged |
| RetryLimit.UpdatedContactPushedIff | backend/src/controllers/contactsController.js:101-104 | after a successful update the contact is `pending` with its old retry count; the next push pass pushes it exactly when that count is below the limit (`syncService.js:64-67`), and otherwise leaves it pending and unchanged |
| RetryLimit.KeptLocalPushedIff | backend/src/controllers/conflictsController.js:91-95 | keeping the local side of a contact conflict always succeeds and only marks the contact `pending` with its old retry count; the next push pass pushes it exactly when that count is below the limit, and otherwise leaves it pending and unchanged |
| SyncService.PollInterval | backend/src/services/syncService.js:391 | the poll interval is the configured value when it parses to a non-zero number and 300000 ms otherwise, never 0 |
| SyncService.MarkAllPending | backend/src/services/syncService.js:332-362 | both record loops leave the database and the outcome as `LocalSyncSpec` says, and on completion report how many contacts and companies were pending |
| SyncService.SyncService.constructor | backend/src/services/syncService.js:13-27 | the service starts with no watermarks, not syncing, no timer and the initial statistics |
| SyncService.SyncService.GetSyncStatus | backend/src/services/syncService.js:32-55 | the five counts are taken afresh and stored in the shared statistics, which are returned; nothing else changes |
| SyncService.SyncService.RunFullSync | backend/src/services/syncService.js:320-382 | while a run is in progress the call answers `Sync already in progress` and changes nothing; otherwise the database, statistics and reply are those of `FullSyncSpec`, and the flags are cleared afterwards |
| SyncService.SyncService.SyncHubSpotToLocal | backend/src/services/syncService.js:154-314 | the contact search filters on the contact watermark when set; the company search is made only if the contact search answered; both loops run in order; the watermarks move to now only when both searches answered |
| SyncService.SyncService.StartPolling | backend/src/services/syncService.js:390-401 | the timer is set with the configured interval, its handle is stored and returned, and nothing else changes |
| SyncService.SyncService.StopPolling | backend/src/services/syncService.js:403-409 | the timer, if any, is cleared and forgotten |
| SyncService.FullSyncCompleted | backend/src/services/syncService.js:364-370 | a completed run reports the numbers of pending contacts and companies it found, writes one entry each, and returns a status with nothing pending, the time of the run and the flag cleared |
| SyncService.FullSyncFailed | backend/src/services/syncService.js:372-381 | a failed run answers `Sync failed: ` and the error, keeps the last sync time, clears the flag, and its status still counts a pending record |
| SyncService.FullSyncTwice | backend/src/services/syncService.js:320-382 | a second run after a completed one changes nothing and reports zero records |
| HubSpotClient.Backoff | backend/utils/hubspotClient.js:30 | the back-off is `2000 * (4 - retries)` ms for up to three retries, and never less than 1 ms |
| HubSpotClient.RequestShape | backend/utils/hubspotClient.js:20-37 | a request makes between 1 and `retries + 1` attempts; every attempt but the last got a 429 with retries left; the last did not; the outcome is what the last attempt got; two waits per retry and one for the last attempt |
| HubSpotClient.SuccessPassesThrough | backend/utils/hubspotClient.js:21-26 | a success is returned after one attempt and one 200 ms wait |
| HubSpotClient.OtherErrorsNotRetried | backend/utils/hubspotClient.js:27-35 | an error other than 429 is rethrown after one attempt, whatever the retries |
| HubSpotClient.DefaultExhaustion | backend/utils/hubspotClient.js:20-36 | an instance of `RequestShape` written out: with the default three retries and 429 every time, four attempts are made with waits 200, 2000, 200, 4000, 200, 6000, 200 ms and the 429 is rethrown |
| LegacyModels.NewLegacyContact | backend/models/Contact.js:3-20 | a new contact holds the given fields and is stamped with now |
| LegacyModels.NewLegacyConflict | backend/models/Conflict.js:3-24 | a new conflict is pending manual resolution, created now, and holds the e-mail and both versions |
| LegacyModels.LegacySave | backend/models/Contact.js:4-9 | a save succeeds exactly when the trimmed e-mail is not empty, stores the trimmed e-mail, stamps `lastModified` with now (the pre-save hook, lines 24-27) and changes no other field |
| LegacyModels.FindByEmail | backend/models/Contact.js:8 | the lookup by e-mail trims the filter value and finds the first contact holding it, and nothing when none does |
| LegacyModels.LegacyDatabase.InsertContact | backend/models/Contact.js:3-27 | an insert succeeds exactly when the save validates and no stored contact holds the e-mail (the unique index); it then appends the saved contact under the next id; otherwise nothing changes |
| LegacyModels.LegacyDatabase.SaveContactAt | backend/models/Contact.js:24-27 | `doc.save()` stores the document with `lastModified` set to now, or changes nothing when validation fails |
| LegacyModels.LegacyDatabase.UpdateContactAt | backend/controllers/contactController.js:33 | an update query writes the document as given, without the pre-save hook |
| LegacyModels.LegacyDatabase.InsertConflict | backend/models/Conflict.js:3-25 | a conflict is appended under the next id |
| LegacyModels.LegacyDatabase.Enqueue | backend/controllers/contactController.js:22 | `syncQueue.add` appends the job and changes nothing else |
| LegacyModels.LegacyDatabase.TakeJob | backend/workers/syncWorker.js:7-8 | the worker receives the oldest job, which leaves the queue |
| LegacyModels.LegacyDatabase.RecordFailure | backend/workers/syncWorker.js:17-20 | a job whose handler threw adds one to the failed count |
| LegacyHubSpot.ToHubSpotFormat | backend/services/hubspotService.js:4-13 | the payload always carries the e-mail and carries first name, last name and phone exactly when they are set, with their values |
| LegacyHubSpot.EmailSearchBody | backend/services/hubspotService.js:18-26 | the search body is one filter group holding one exact-match filter on the e-mail |
| LegacyHubSpot.FirstResult | backend/services/hubspotService.js:28 | the search gives the first result, and nothing exactly when there are no results |
| LegacyHubSpot.CreateContactCall | backend/services/hubspotService.js:35-43 | `createContact` posts the mapped contact |
| LegacyHubSpot.UpdateContactCall | backend/services/hubspotService.js:45-53 | `updateContact` patches the given HubSpot id with the mapped contact |
| LegacyHubSpot.SamePayload | backend/services/hubspotService.js:35-53 | create and update send the same properties |
| LegacyHubSpot.FormatKeys | backend/services/hubspotService.js:4-13 | the payload has at most the four mapped keys and depends only on those four fields, never on the ids or the modification time |
| SyncWorker.EnsureConflictRecord | backend/workers/syncWorker.js:89-99 | a conflict is always created (its existence check filters on a field conflicts do not have), unless the empty e-mail fails validation, which throws |
| SyncWorker.PushLocal | backend/workers/syncWorker.js:31-50 | after the search, a newer HubSpot contact raises a conflict; otherwise the first result is updated; with no result the contact is created and its HubSpot id saved |
| SyncWorker.HandleLocalUpdate | backend/workers/syncWorker.js:24-51 | an unknown contact id does nothing; otherwise one search by the contact's e-mail, then the push, as `LocalUpdateSpec` says |
| SyncWorker.HandleHubSpotWebhook | backend/workers/syncWorker.js:54-87 | the webhook does nothing without an e-mail, raises a conflict when the local contact is newer, overwrites it otherwise, and creates one when none has the e-mail |
| SyncWorker.ProcessJob | backend/workers/syncWorker.js:7-21 | the job is dispatched on its trigger, as `ProcessJobSpec` says |
| SyncWorker.ProcessNextJob | backend/workers/syncWorker.js:7-21 | the oldest job leaves the queue, is run, and counted once as failed if it threw |
| SyncWorker.UnknownTriggerIgnored | backend/workers/syncWorker.js:12-16 | a job with any other trigger changes nothing and completes |
| SyncWorker.LocalUpdateExisting | backend/workers/syncWorker.js:29-43 | when HubSpot finds the e-mail, the search comes first; a HubSpot contact strictly newer than the local one raises a conflict and makes no other call; otherwise the first result is updated with the local fields; the local contact is never changed |
| SyncWorker.LocalUpdateCreates | backend/workers/syncWorker.js:44-50 | when HubSpot does not find the e-mail, the contact is created there, and the local contact takes the returned id and is stamped with now by its save |
| SyncWorker.WebhookExisting | backend/workers/syncWorker.js:58-76 | for a contact with the webhook's e-mail: exactly when it is newer than HubSpot's `updatedAt` (now when absent) a conflict is recorded and the contact is left alone; otherwise names, phone and HubSpot id are copied and the save stamps it with now |
| SyncWorker.WebhookNew | backend/workers/syncWorker.js:55-56 | a webhook without an e-mail changes nothing; one whose e-mail no contact holds creates a contact with the HubSpot fields, or fails if the trimmed e-mail is empty (lines 77-85) |
| SyncWorker.EqualTimestampsNeverConflict | backend/workers/syncWorker.js:36 | when both sides carry the same timestamp neither handler raises a conflict |
| SyncWorker.MissingUpdatedAt | backend/workers/syncWorker.js:32-59 | without `updatedAt` the push never sees HubSpot as newer, while the webhook compares the local contact with now |
| SyncWorker.ConflictsDuplicate | backend/workers/syncWorker.js:89-99 | two conflicts raised for the same e-mail both stay pending: no duplicate is ever detected |
| SyncWorker.ProcessNextCounts | backend/workers/syncWorker.js:17-20 | every job leaves the queue once; the failed count grows by one exactly when it threw |
| SyncWorker.JobKeepsQueue | backend/workers/syncWorker.js:7-21 | the handlers never touch the queue |
| LegacyContactController.PushJob | backend/controllers/contactController.js:22 | the job queued after a write is a `local_update` for that contact |
| LegacyContactController.CreateContact | backend/controllers/contactController.js:16-28 | the handler leaves the database and reply as `CreateSpec` says |
| LegacyContactController.Edited | backend/controllers/contactController.js:33 | an update query replaces exactly the fields the body gives (the e-mail trimmed) and keeps the id, HubSpot id and `lastModified` |
| LegacyContactController.UpdateContact | backend/controllers/contactController.js:30-43 | the handler leaves the database and reply as `UpdateSpec` says |
| LegacyContactController.PendingConflicts | backend/controllers/contactController.js:64-71 | the list holds exactly the conflicts pending manual resolution |
| LegacyContactController.StatsMatchConflictList | backend/controllers/contactController.js:46-71 | the dashboard's pending count is the length of the conflict list |
| LegacyContactController.KeptLocal | backend/controllers/contactController.js:91 | keeping the local version writes the stored local fields that are set, with the e-mail trimmed, its HubSpot id, and now |
| LegacyContactController.KeptHubSpot | backend/controllers/contactController.js:98-103 | keeping the HubSpot version writes the HubSpot names and phone that are set and now, keeping e-mail and HubSpot id |
| LegacyContactController.KeepLocal | backend/controllers/contactController.js:83-93 | the "local" branch leaves the database and the error as `KeepLocalSpec` says |
| LegacyContactController.KeepHubSpot | backend/controllers/contactController.js:95-105 | the "hubspot" branch leaves the database as `KeepHubSpotSpec` says |
| LegacyContactController.ResolveConflict | backend/controllers/contactController.js:74-114 | the handler leaves the database and reply as `ResolveSpec` says |
| LegacyContactController.CreateQueuesOnePush | backend/controllers/contactController.js:16-28 | creation succeeds exactly when the trimmed e-mail is non-empty and unused, answering 201 with the new contact and queueing one `local_update`; otherwise 400 and nothing changes |
| LegacyContactController.UpdateQueuesOnePush | backend/controllers/contactController.js:30-43 | an unknown id answers 404; a success queues one `local_update` and keeps `lastModified` and the HubSpot id; a failure changes nothing |
| LegacyContactController.ResolveUnknown | backend/controllers/contactController.js:78-79 | an unknown conflict id answers 404 and changes nothing |
| LegacyContactController.ResolveAlwaysResolves | backend/controllers/contactController.js:95-110 | any version other than "local" answers success and marks the conflict resolved without queueing anything; a version that is neither leaves the contacts alone |
| LegacyContactController.ResolveTwice | backend/controllers/contactController.js:77-110 | resolving the same conflict again succeeds again: nothing checks its status |
| LegacyContactController.ResolveKeepLocal | backend/controllers/contactController.js:83-93 | keeping local overwrites the contact holding the e-mail with the stored local version stamped now, queues one `local_update` for it, and resolves the conflict |
| LegacyContactController.ResolveKeepHubSpot | backend/controllers/contactController.js:95-105 | keeping HubSpot copies the HubSpot fields into the contact holding the e-mail, if any, queues nothing, and resolves the conflict |
| LegacyContactController.ResolvingCountsDown | backend/controllers/contactController.js:107-108 | resolving a pending conflict lowers the pending count by one, resolving one already resolved leaves it |

## Left out

- HTTP routing, request parsing and JSON serialisation: each handler is modelled from the request fields it reads to the status code and body it answers.
- The database driver: MongoDB is modelled as in-memory sequences with ids from a counter; queries, indexes and documents are values, and the driver's error message texts are stand-ins.
- Concurrency: every operation runs to completion before the next starts, so the single-flight flag of `runFullSync` is a plain boolean and no two awaits interleave.
- Real timers and sleeping: `setInterval` is modelled by the handle it returns, and the waits of the legacy request wrapper are returned as a list of durations.
- Console logging, which changes no state.
- The network: every HubSpot answer (search results, created ids, errors) is a parameter of the operation that asks for it.
- The `catch` path of `getSyncStatus`, which only runs when a count query fails; database failures are modelled only in the local-mode record loops.
- HubSpot properties beyond those the code reads, and date strings that do not parse other than a missing `updatedAt` (an invalid remote modification date is `None`).
- Bull's own retry and back-off settings, Redis and the separate worker process: the queue is a sequence, a job is taken once and a thrown job is counted once as failed.
- The `timestamps` option's `createdAt`/`updatedAt` fields of the legacy contact, which no modelled code reads.
- Fields a client could put in a request body other than the modelled ones (`_id`, `lastModified`, `hubspotId`, `syncStatus` and the like), JSON `null` values, and malformed ids that would fail to cast.
- The frontend.
- Text.ToLower: lower-cases the ASCII letters only, where `toLowerCase` maps every Unicode letter. So the model treats two e-mails or domains that differ only in a non-ASCII letter's case (`Ä@x.de` and `ä@x.de`) as different. The source treats them as equal.
- Text.Trim: removes the ASCII white space, no-break space, byte order mark and the line and paragraph separators. It keeps the other Unicode space separators (U+1680, U+2000 to U+200A, U+202F, U+205F, U+3000), which `String.prototype.trim` also removes. So `"a@b.com\u3000"` is stored with its trailing U+3000.
- Together, these two limits restrict the following duplicate checks to ASCII case and the listed white space: `ContactsController.CreateSpec`/`CreateUniqueEmail`, `Store.FindContactByEmail`, `CompaniesController.CreateSpec`/`CreateUniqueDomain` and the pull's e-mail match (`PullPass.PullOneContact`). The same applies to the trim/lower-case setters of `Models.SaveContact` and `Models.SaveCompany`. The full sets are left out because larger character sets made every proof over the store invariant markedly more expensive.
- Read-only handlers outside the synchronisation core (`getAllContacts`, `getContactById`, the legacy `getContacts` with its sort by `lastModified`, the sync log listing).
- ConflictsController.SortByDetected: the order among conflicts with the same `detectedAt` is not stated; the sort is stable in the model and the database gives no order for ties.
- The promise returned by the unawaited `syncQueue.add` in the legacy controller, which is assumed to succeed.
- LegacyContactController.ResolveKeepLocal: assumes that no other contact holds the e-mail (what the unique index guarantees) as a precondition, because the modelled store invariant does not carry e-mail uniqueness.
- SyncWorker.LocalUpdateExisting: states the number of conflicts raised and the calls made, not the content of the new conflict record, which `SyncWorker.EnsureConflictRecord` states.
