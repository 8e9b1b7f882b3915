/** The legacy queue worker (backend/workers/syncWorker.js): it takes the
    oldest job, dispatches on its trigger, pushes a locally updated contact
    to HubSpot or applies a HubSpot webhook locally, and records a conflict
    when the other side is strictly newer. HubSpot is represented by the
    replies it gives to the requests of one job; the requests themselves
    are returned. */
module SyncWorker {
  import opened Common
  import opened Text
  import opened LegacyModels
  import opened LegacyHubSpot

  /** What HubSpot answers during one job: the search results (`None` when
      the search throws) and the outcome of the write (`None` when it throws;
      otherwise the id HubSpot gives a created contact). */
  datatype RemoteReplies = RemoteReplies(search: Option<seq<HsContact>>, write: Option<string>)

  /** The database after a job, the requests it sent, and whether it
      completed (`false`: the handler threw and the queue records a failed
      job). */
  datatype Step = Step(tables: LegacyTables, calls: seq<LegacyCall>, ok: bool)

  // ---------------------------------------------------------------------
  // The handlers as functions of the database

  /** `ensureConflictRecord`: its lookup filters on `email`, a key the
      Conflict schema does not have, so it never finds a document and a new
      pending conflict is always created (the required `contactEmail`
      rejects an empty e-mail). */
  function EnsureConflictSpec(t: LegacyTables, email: string, localData: LegacyContact, hubspotData: HsContact,
                              now: Time): (LegacyTables, bool)
  {
    if email == "" then (t, false)
    else (t.(conflicts := t.conflicts + [NewLegacyConflict(t.nextId, email, localData, hubspotData, now)],
             nextId := t.nextId + 1), true)
  }

  /** The conflict test of `handleLocalUpdate`: HubSpot's `updatedAt` is
      strictly later than the local `lastModified` (a missing `updatedAt` is
      an invalid date, later than nothing). */
  predicate RemoteNewer(hs: HsContact, local: LegacyContact) {
    hs.updatedAt.Some? && hs.updatedAt.value > local.lastModified
  }

  /** The conflict test of `handleHubSpotWebhook`: the local `lastModified`
      is strictly later than HubSpot's `updatedAt`, a missing one being
      `now`. */
  predicate LocalNewer(local: LegacyContact, hs: HsContact, now: Time) {
    local.lastModified > hs.updatedAt.GetOr(now)
  }

  /** The write of `handleLocalUpdate` once the search has answered. */
  function PushLocalSpec(t: LegacyTables, k: nat, results: seq<HsContact>, write: Option<string>, now: Time): Step
    requires k < |t.contacts|
  {
    var local := t.contacts[k];
    var search := SearchCall(EmailSearchBody(local.email));
    match FirstResult(results)
    case Some(hs) =>
      if RemoteNewer(hs, local) then
        var (t', ok) := EnsureConflictSpec(t, local.email, local, hs, now);
        Step(t', [search], ok)
      else Step(t, [search, UpdateContactCall(hs.id, local)], write.Some?)
    case None =>
      var calls := [search, CreateContactCall(local)];
      if write.None? then Step(t, calls, false)
      else
        match LegacySave(local.(hubspotId := Some(write.value)), now)
        case None => Step(t, calls, false)
        case Some(_) => Step(t.(contacts := t.contacts[k := local.(hubspotId := Some(write.value), lastModified := now)]), calls, true)
  }

  /** `handleLocalUpdate(contactId)`. */
  function LocalUpdateSpec(t: LegacyTables, contactId: Option<Id>, remote: RemoteReplies, now: Time): Step {
    if contactId.None? then Step(t, [], true)
    else
      match FindLegacyContact(t.contacts, contactId.value)
      case None => Step(t, [], true)
      case Some(k) =>
        if remote.search.None? then Step(t, [SearchCall(EmailSearchBody(t.contacts[k].email))], false)
        else PushLocalSpec(t, k, remote.search.value, remote.write, now)
  }

  /** The local contact `handleHubSpotWebhook` writes over an existing one. */
  function FromWebhook(local: LegacyContact, hs: HsContact): LegacyContact {
    local.(firstName := hs.properties.firstname, lastName := hs.properties.lastname,
           phone := hs.properties.phone, hubspotId := Some(hs.id))
  }

  /** `handleHubSpotWebhook` on an existing local contact. */
  function ApplyWebhookSpec(t: LegacyTables, k: nat, hs: HsContact, now: Time): (LegacyTables, bool)
    requires k < |t.contacts| && Present(hs.properties.email)
  {
    var local := t.contacts[k];
    if LocalNewer(local, hs, now) then EnsureConflictSpec(t, hs.properties.email.value, local, hs, now)
    else
      match LegacySave(FromWebhook(local, hs), now)
      case None => (t, false)
      case Some(_) => (t.(contacts := t.contacts[k := FromWebhook(local, hs).(lastModified := now)]), true)
  }

  /** The contact `handleHubSpotWebhook` creates when none has the e-mail. */
  function WebhookContact(hs: HsContact, id: Id, now: Time): LegacyContact
    requires Present(hs.properties.email)
  {
    NewLegacyContact(id, hs.properties.email.value, hs.properties.firstname, hs.properties.lastname,
                     hs.properties.phone, Some(hs.id), now)
  }

  /** `handleHubSpotWebhook(hsData)`. */
  function WebhookSpec(t: LegacyTables, hs: HsContact, now: Time): (LegacyTables, bool) {
    if !Present(hs.properties.email) then (t, true)
    else
      match FindByEmail(t.contacts, hs.properties.email.value)
      case Some(k) => ApplyWebhookSpec(t, k, hs, now)
      case None =>
        match LegacySave(WebhookContact(hs, t.nextId, now), now)
        case None => (t, false)
        case Some(s) => (t.(contacts := t.contacts + [s], nextId := t.nextId + 1), true)
  }

  /** The worker's dispatch on the job's trigger. */
  function ProcessJobSpec(t: LegacyTables, job: Job, remote: RemoteReplies, now: Time): Step {
    if job.trigger == LocalUpdate then LocalUpdateSpec(t, job.contactId, remote, now)
    else if job.trigger == HubSpotWebhook then
      if job.hubspotContact.None? then Step(t, [], false)
      else
        var (t', ok) := WebhookSpec(t, job.hubspotContact.value, now);
        Step(t', [], ok)
    else Step(t, [], true)
  }

  /** The queue runs its oldest job and counts it as failed when it throws. */
  function ProcessNextSpec(t: LegacyTables, remote: RemoteReplies, now: Time): Step
    requires |t.jobs| > 0
  {
    var s := ProcessJobSpec(t.(jobs := t.jobs[1..]), t.jobs[0], remote, now);
    if s.ok then s else s.(tables := s.tables.(failedJobs := s.tables.failedJobs + 1))
  }

  // ---------------------------------------------------------------------
  // The handlers on the database

  method EnsureConflictRecord(db: LegacyDatabase, email: string, localData: LegacyContact,
                              hubspotData: HsContact, now: Time) returns (ok: bool)
    requires db.Valid()
    modifies db
    ensures db.Valid()
    ensures (db.State(), ok) == EnsureConflictSpec(old(db.State()), email, localData, hubspotData, now)
  {
    if email == "" {
      return false;
    }
    var stored := db.InsertConflict(NewLegacyConflict(0, email, localData, hubspotData, now));
    ok := true;
  }

  method PushLocal(db: LegacyDatabase, k: nat, results: seq<HsContact>, write: Option<string>, now: Time)
    returns (calls: seq<LegacyCall>, ok: bool)
    requires db.Valid() && k < |db.contacts|
    modifies db
    ensures db.Valid()
    ensures Step(db.State(), calls, ok) == PushLocalSpec(old(db.State()), k, results, write, now)
  {
    var local := db.contacts[k];
    var search := SearchCall(EmailSearchBody(local.email));
    var hs := FirstResult(results);
    if hs.Some? {
      if RemoteNewer(hs.value, local) {
        ok := EnsureConflictRecord(db, local.email, local, hs.value, now);
        calls := [search];
      } else {
        calls := [search, UpdateContactCall(hs.value.id, local)];
        ok := write.Some?;
      }
    } else {
      calls := [search, CreateContactCall(local)];
      if write.None? {
        ok := false;
      } else {
        ok := db.SaveContactAt(k, local.(hubspotId := Some(write.value)), now);
      }
    }
  }

  method HandleLocalUpdate(db: LegacyDatabase, contactId: Option<Id>, remote: RemoteReplies, now: Time)
    returns (calls: seq<LegacyCall>, ok: bool)
    requires db.Valid()
    modifies db
    ensures db.Valid()
    ensures Step(db.State(), calls, ok) == LocalUpdateSpec(old(db.State()), contactId, remote, now)
  {
    calls, ok := [], true;
    if contactId.None? {
      return;
    }
    var found := FindLegacyContact(db.contacts, contactId.value);
    if found.None? {
      return;
    }
    var k := found.value;
    if remote.search.None? {
      calls, ok := [SearchCall(EmailSearchBody(db.contacts[k].email))], false;
      return;
    }
    calls, ok := PushLocal(db, k, remote.search.value, remote.write, now);
  }

  method HandleHubSpotWebhook(db: LegacyDatabase, hs: HsContact, now: Time) returns (ok: bool)
    requires db.Valid()
    modifies db
    ensures db.Valid()
    ensures (db.State(), ok) == WebhookSpec(old(db.State()), hs, now)
  {
    var email := hs.properties.email;
    if !Present(email) {
      return true;
    }
    var found := FindByEmail(db.contacts, email.value);
    if found.Some? {
      var k := found.value;
      var local := db.contacts[k];
      if LocalNewer(local, hs, now) {
        ok := EnsureConflictRecord(db, email.value, local, hs, now);
      } else {
        ok := db.SaveContactAt(k, FromWebhook(local, hs), now);
      }
    } else {
      var created := db.InsertContact(WebhookContact(hs, 0, now), now);
      ok := created.Some?;
    }
  }

  method ProcessJob(db: LegacyDatabase, job: Job, remote: RemoteReplies, now: Time)
    returns (calls: seq<LegacyCall>, ok: bool)
    requires db.Valid()
    modifies db
    ensures db.Valid()
    ensures Step(db.State(), calls, ok) == ProcessJobSpec(old(db.State()), job, remote, now)
  {
    calls, ok := [], true;
    if job.trigger == LocalUpdate {
      calls, ok := HandleLocalUpdate(db, job.contactId, remote, now);
    } else if job.trigger == HubSpotWebhook {
      if job.hubspotContact.None? {
        ok := false;
      } else {
        ok := HandleHubSpotWebhook(db, job.hubspotContact.value, now);
      }
    }
  }

  /** One turn of the worker: take the oldest job, run it, and let the queue
      count a failure. */
  method ProcessNextJob(db: LegacyDatabase, remote: RemoteReplies, now: Time)
    returns (calls: seq<LegacyCall>, ok: bool)
    requires db.Valid() && |db.jobs| > 0
    modifies db
    ensures db.Valid()
    ensures Step(db.State(), calls, ok) == ProcessNextSpec(old(db.State()), remote, now)
  {
    var job := db.TakeJob();
    calls, ok := ProcessJob(db, job, remote, now);
    if !ok {
      db.RecordFailure();
    }
  }

  // ---------------------------------------------------------------------
  // Properties

  /** A job with any other trigger does nothing and completes. */
  lemma UnknownTriggerIgnored(t: LegacyTables, job: Job, remote: RemoteReplies, now: Time)
    requires job.trigger != LocalUpdate && job.trigger != HubSpotWebhook
    ensures ProcessJobSpec(t, job, remote, now) == Step(t, [], true)
  {
  }

  /** `handleLocalUpdate` for a contact HubSpot already has: it searches by
      the contact's e-mail with an exact filter; it records a conflict and
      sends nothing more exactly when HubSpot's `updatedAt` is strictly
      later, and otherwise patches that HubSpot contact with the local
      fields, leaving the local side alone. */
  lemma LocalUpdateExisting(t: LegacyTables, id: Id, k: nat, results: seq<HsContact>, remote: RemoteReplies, now: Time)
    requires FindLegacyContact(t.contacts, id) == Some(k)
    requires remote.search == Some(results) && results != []
    ensures var s := LocalUpdateSpec(t, Some(id), remote, now);
            && |s.calls| >= 1 && s.calls[0] == SearchCall(EmailSearchBody(t.contacts[k].email))
            && s.tables.contacts == t.contacts
    ensures LocalUpdateSpec(t, Some(id), remote, now).calls
            == if RemoteNewer(results[0], t.contacts[k]) then [SearchCall(EmailSearchBody(t.contacts[k].email))]
               else [SearchCall(EmailSearchBody(t.contacts[k].email)), UpdateCall(results[0].id, ToHubSpotFormat(t.contacts[k]))]
    ensures |LocalUpdateSpec(t, Some(id), remote, now).tables.conflicts|
            == |t.conflicts| + (if RemoteNewer(results[0], t.contacts[k]) && t.contacts[k].email != "" then 1 else 0)
  {
  }

  /** `handleLocalUpdate` for a contact HubSpot does not have: it creates
      it there and, when that succeeds, saves the new HubSpot id locally —
      a `save`, so the hook also moves `lastModified` to now. */
  lemma LocalUpdateCreates(t: LegacyTables, id: Id, k: nat, hubspotId: string, now: Time)
    requires LegacyWellFormed(t)
    requires FindLegacyContact(t.contacts, id) == Some(k) && t.contacts[k].email != ""
    ensures var s := LocalUpdateSpec(t, Some(id), RemoteReplies(Some([]), Some(hubspotId)), now);
            && s.ok
            && s.calls == [SearchCall(EmailSearchBody(t.contacts[k].email)), CreateCall(ToHubSpotFormat(t.contacts[k]))]
            && s.tables == t.(contacts := t.contacts[k := t.contacts[k].(hubspotId := Some(hubspotId), lastModified := now)])
  {
    TrimmedIff(t.contacts[k].email);
  }

  /** A webhook for a contact that exists locally records a conflict and
      leaves the contact alone exactly when the local `lastModified` is
      strictly later than HubSpot's `updatedAt` (now when missing);
      otherwise it copies the names, the phone and the HubSpot id, and the
      save stamps the contact with now. */
  lemma WebhookExisting(t: LegacyTables, hs: HsContact, k: nat, now: Time)
    requires LegacyWellFormed(t) && Present(hs.properties.email)
    requires FindByEmail(t.contacts, hs.properties.email.value) == Some(k) && t.contacts[k].email != ""
    ensures LocalNewer(t.contacts[k], hs, now) ==>
              WebhookSpec(t, hs, now)
              == (t.(conflicts := t.conflicts + [NewLegacyConflict(t.nextId, hs.properties.email.value, t.contacts[k], hs, now)],
                     nextId := t.nextId + 1), true)
    ensures !LocalNewer(t.contacts[k], hs, now) ==>
              WebhookSpec(t, hs, now)
              == (t.(contacts := t.contacts[k := t.contacts[k].(firstName := hs.properties.firstname,
                                                                 lastName := hs.properties.lastname,
                                                                 phone := hs.properties.phone,
                                                                 hubspotId := Some(hs.id),
                                                                 lastModified := now)]), true)
  {
    TrimmedIff(t.contacts[k].email);
  }

  /** A webhook for an e-mail no local contact has creates the contact under
      the next id, with the trimmed e-mail, the HubSpot fields and id, unless
      the e-mail is blank once trimmed; a webhook without an e-mail does
      nothing. */
  lemma WebhookNew(t: LegacyTables, hs: HsContact, now: Time)
    ensures !Present(hs.properties.email) ==> WebhookSpec(t, hs, now) == (t, true)
    ensures Present(hs.properties.email) && FindByEmail(t.contacts, hs.properties.email.value).None? ==>
              WebhookSpec(t, hs, now)
              == if Trim(hs.properties.email.value) == "" then (t, false)
                 else (t.(contacts := t.contacts + [LegacyContact(t.nextId, Trim(hs.properties.email.value),
                                                                  hs.properties.firstname, hs.properties.lastname,
                                                                  hs.properties.phone, Some(hs.id), now)],
                          nextId := t.nextId + 1), true)
  {
  }

  /** Newer wins with a strict comparison on both sides: when HubSpot's
      `updatedAt` equals the local `lastModified`, neither handler records a
      conflict. */
  lemma EqualTimestampsNeverConflict(local: LegacyContact, hs: HsContact, now: Time)
    requires hs.updatedAt == Some(local.lastModified)
    ensures !RemoteNewer(hs, local) && !LocalNewer(local, hs, now)
  {
  }

  /** The two handlers disagree on a HubSpot contact without `updatedAt`:
      the push treats it as older than everything, the webhook as `now`. */
  lemma MissingUpdatedAt(local: LegacyContact, hs: HsContact, now: Time)
    requires hs.updatedAt.None?
    ensures !RemoteNewer(hs, local)
    ensures LocalNewer(local, hs, now) <==> local.lastModified > now
  {
  }

  /** The duplicate check of `ensureConflictRecord` never fires: raising a
      conflict twice for the same e-mail leaves two pending conflicts for
      it. */
  lemma ConflictsDuplicate(t: LegacyTables, email: string, local: LegacyContact, hs: HsContact, now: Time, later: Time)
    requires email != ""
    ensures var t2 := EnsureConflictSpec(EnsureConflictSpec(t, email, local, hs, now).0, email, local, hs, later).0;
            && |t2.conflicts| == |t.conflicts| + 2
            && t2.conflicts[|t.conflicts|].contactEmail == email
            && t2.conflicts[|t.conflicts| + 1].contactEmail == email
            && t2.conflicts[|t.conflicts|].status == PendingManualResolution
            && t2.conflicts[|t.conflicts| + 1].status == PendingManualResolution
  {
  }

  /** A job that throws is counted once as failed and is not put back; a
      job that completes is not counted. Either way it leaves the queue. */
  lemma ProcessNextCounts(t: LegacyTables, remote: RemoteReplies, now: Time)
    requires |t.jobs| > 0
    ensures ProcessNextSpec(t, remote, now).tables.jobs == t.jobs[1..]
    ensures ProcessNextSpec(t, remote, now).tables.failedJobs
            == t.failedJobs + (if ProcessNextSpec(t, remote, now).ok then 0 else 1)
  {
    var t0 := t.(jobs := t.jobs[1..]);
    JobKeepsQueue(t0, t.jobs[0], remote, now);
  }

  /** Handlers never touch the queue. */
  lemma JobKeepsQueue(t: LegacyTables, job: Job, remote: RemoteReplies, now: Time)
    ensures ProcessJobSpec(t, job, remote, now).tables.jobs == t.jobs
    ensures ProcessJobSpec(t, job, remote, now).tables.failedJobs == t.failedJobs
  {
    if job.trigger == LocalUpdate && job.contactId.Some? {
      match FindLegacyContact(t.contacts, job.contactId.value)
      case None =>
      case Some(k) =>
        if remote.search.Some? {
          assert PushLocalSpec(t, k, remote.search.value, remote.write, now).tables.jobs == t.jobs;
        }
    }
  }
}
