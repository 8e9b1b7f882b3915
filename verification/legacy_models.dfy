/** The records of the legacy queue-worker variant (backend/models/Contact.js,
    backend/models/Conflict.js), the job queue it feeds, and its store. A
    contact is keyed by its e-mail; every `save` of a contact runs the
    pre-save hook that stamps `lastModified` with the current time, while
    `findByIdAndUpdate` / `updateOne` bypass the hook. */
module LegacyModels {
  import opened Common
  import opened Text

  /** The properties of a HubSpot contact the variant reads. */
  datatype HsProperties = HsProperties(
    email: Option<string>,
    firstname: Option<string>,
    lastname: Option<string>,
    phone: Option<string>)

  /** A HubSpot contact as the search and the webhook deliver it; `updatedAt`
      is `None` when HubSpot leaves it out. */
  datatype HsContact = HsContact(id: string, properties: HsProperties, updatedAt: Option<Time>)

  /** A legacy contact: the e-mail is required, unique and trimmed; the
      names and the phone are optional; `hubspotId` defaults to null. */
  datatype LegacyContact = LegacyContact(
    id: Id,
    email: string,
    firstName: Option<string>,
    lastName: Option<string>,
    phone: Option<string>,
    hubspotId: Option<string>,
    lastModified: Time)

  datatype ConflictStatus = PendingManualResolution | Resolved

  /** A legacy conflict, keyed by the contact's e-mail, holding the local
      document and the HubSpot contact as they were when it was raised. */
  datatype LegacyConflict = LegacyConflict(
    id: Id,
    contactEmail: string,
    localData: LegacyContact,
    hubspotData: HsContact,
    status: ConflictStatus,
    createdAt: Time)

  /** A queued job: `trigger` names the handler; `local_update` jobs carry a
      contact id and `hubspot_webhook` jobs a HubSpot contact. */
  datatype Job = Job(trigger: string, contactId: Option<Id>, hubspotContact: Option<HsContact>)

  const LocalUpdate := "local_update"
  const HubSpotWebhook := "hubspot_webhook"

  /** A new contact with the schema defaults (no HubSpot id, stamped now). */
  function NewLegacyContact(id: Id, email: string, firstName: Option<string>, lastName: Option<string>,
                            phone: Option<string>, hubspotId: Option<string>, now: Time): (c: LegacyContact)
    ensures c.id == id && c.email == email && c.hubspotId == hubspotId && c.lastModified == now
    ensures c.firstName == firstName && c.lastName == lastName && c.phone == phone
  {
    LegacyContact(id, email, firstName, lastName, phone, hubspotId, now)
  }

  /** A freshly raised conflict: pending manual resolution, created now. */
  function NewLegacyConflict(id: Id, email: string, localData: LegacyContact, hubspotData: HsContact,
                             now: Time): (c: LegacyConflict)
    ensures c.status == PendingManualResolution && c.createdAt == now
    ensures c.id == id && c.contactEmail == email && c.localData == localData && c.hubspotData == hubspotData
  {
    LegacyConflict(id, email, localData, hubspotData, PendingManualResolution, now)
  }

  /** `doc.save()` on a contact: the e-mail setter trims, the required
      validator rejects an empty e-mail, and the pre-save hook stamps
      `lastModified` with `now`. */
  function LegacySave(c: LegacyContact, now: Time): (r: Option<LegacyContact>)
    ensures r.Some? <==> Trim(c.email) != ""
    ensures r.Some? ==> IsTrimmed(r.value.email) && r.value.lastModified == now
    ensures r.Some? ==> r.value.(email := c.email, lastModified := c.lastModified) == c
  {
    TrimmedEnds(c.email);
    if Trim(c.email) != "" then Some(c.(email := Trim(c.email), lastModified := now)) else None
  }

  /** The whole legacy database, as a value. */
  datatype LegacyTables = LegacyTables(
    contacts: seq<LegacyContact>,
    conflicts: seq<LegacyConflict>,
    jobs: seq<Job>,
    failedJobs: nat,
    nextId: Id)

  /** Every id was handed out by the generator, and every stored e-mail is
      trimmed (what the setter leaves). */
  predicate LegacyWellFormed(t: LegacyTables) {
    && (forall i :: 0 <= i < |t.contacts| ==> t.contacts[i].id < t.nextId && IsTrimmed(t.contacts[i].email))
    && (forall i :: 0 <= i < |t.conflicts| ==> t.conflicts[i].id < t.nextId)
  }

  /** `Contact.findById(id)`. */
  function FindLegacyContact(cs: seq<LegacyContact>, id: Id): (r: Option<nat>)
    ensures r.Some? ==> r.value < |cs| && cs[r.value].id == id
    ensures r.None? ==> forall i :: 0 <= i < |cs| ==> cs[i].id != id
  {
    FirstIndex(cs, (c: LegacyContact) => c.id == id)
  }

  /** `Contact.findOne({ email })`: the filter value goes through the trim
      setter before it is compared. */
  function FindByEmail(cs: seq<LegacyContact>, email: string): (r: Option<nat>)
    ensures r.Some? ==> r.value < |cs| && cs[r.value].email == Trim(email)
    ensures r.Some? ==> forall i :: 0 <= i < r.value ==> cs[i].email != Trim(email)
    ensures r.None? ==> forall i :: 0 <= i < |cs| ==> cs[i].email != Trim(email)
  {
    FirstIndex(cs, (c: LegacyContact) => c.email == Trim(email))
  }

  /** The first contact holding the trimmed e-mail is the one the lookup
      finds. */
  lemma FindByEmailAt(cs: seq<LegacyContact>, email: string, j: nat)
    requires j < |cs| && cs[j].email == Trim(email)
    requires forall i :: 0 <= i < j ==> cs[i].email != Trim(email)
    ensures FindByEmail(cs, email) == Some(j)
  {
  }

  /** `Conflict.findById(id)`. */
  function FindLegacyConflict(cs: seq<LegacyConflict>, id: Id): (r: Option<nat>)
    ensures r.Some? ==> r.value < |cs| && cs[r.value].id == id
    ensures r.None? ==> forall i :: 0 <= i < |cs| ==> cs[i].id != id
  {
    FirstIndex(cs, (c: LegacyConflict) => c.id == id)
  }

  /** Another contact than the one at `self` (if any) already holds `email`:
      the unique index rejects the write. */
  predicate EmailTaken(cs: seq<LegacyContact>, email: string, self: Option<nat>) {
    exists i :: 0 <= i < |cs| && Some(i) != self && cs[i].email == email
  }

  class LegacyDatabase {
    var contacts: seq<LegacyContact>
    var conflicts: seq<LegacyConflict>
    /** The jobs waiting in the queue, oldest first. */
    var jobs: seq<Job>
    /** The queue's count of failed jobs. */
    var failedJobs: nat
    var nextId: Id

    function State(): LegacyTables
      reads this
    {
      LegacyTables(contacts, conflicts, jobs, failedJobs, nextId)
    }

    ghost predicate Valid()
      reads this
    {
      LegacyWellFormed(State())
    }

    constructor ()
      ensures Valid() && State() == LegacyTables([], [], [], 0, 0)
    {
      contacts, conflicts, jobs, failedJobs, nextId := [], [], [], 0, 0;
    }

    /** `Contact.create` / `new Contact(...).save()`: the contact gets the
        next id, is saved (trimmed, validated, stamped) and must not take an
        e-mail another contact holds. */
    method InsertContact(c: LegacyContact, now: Time) returns (saved: Option<LegacyContact>)
      requires Valid()
      modifies this
      ensures Valid()
      ensures saved.Some? <==> LegacySave(c, now).Some? && !EmailTaken(old(contacts), LegacySave(c, now).value.email, None)
      ensures saved.Some? ==> saved.value == LegacySave(c, now).value.(id := old(nextId))
      ensures saved.Some? ==> contacts == old(contacts) + [saved.value] && nextId == old(nextId) + 1
      ensures saved.None? ==> contacts == old(contacts) && nextId == old(nextId)
      ensures conflicts == old(conflicts) && jobs == old(jobs) && failedJobs == old(failedJobs)
    {
      saved := None;
      var s := LegacySave(c, now);
      if s.Some? && !EmailTaken(contacts, s.value.email, None) {
        var d := s.value.(id := nextId);
        contacts := contacts + [d];
        nextId := nextId + 1;
        saved := Some(d);
      }
    }

    /** `doc.save()` on the stored contact at `k`, with its e-mail unchanged:
        the hook stamps `lastModified`; an empty e-mail fails validation. */
    method SaveContactAt(k: nat, c: LegacyContact, now: Time) returns (ok: bool)
      requires Valid() && k < |contacts| && c.id == contacts[k].id && c.email == contacts[k].email
      modifies this
      ensures Valid()
      ensures ok <==> LegacySave(c, now).Some?
      ensures ok ==> contacts == old(contacts)[k := c.(lastModified := now)]
      ensures !ok ==> contacts == old(contacts)
      ensures conflicts == old(conflicts) && jobs == old(jobs) && failedJobs == old(failedJobs)
      ensures nextId == old(nextId)
    {
      ok := false;
      var s := LegacySave(c, now);
      if s.Some? {
        TrimmedIff(c.email);
        contacts := contacts[k := c.(lastModified := now)];
        ok := true;
      }
    }

    /** An update query (`findByIdAndUpdate`, `updateOne`) on the contact at
        `k`: written as given, without the pre-save hook. */
    method UpdateContactAt(k: nat, c: LegacyContact)
      requires Valid() && k < |contacts| && c.id == contacts[k].id && IsTrimmed(c.email)
      modifies this
      ensures Valid()
      ensures contacts == old(contacts)[k := c]
      ensures conflicts == old(conflicts) && jobs == old(jobs) && failedJobs == old(failedJobs)
      ensures nextId == old(nextId)
    {
      contacts := contacts[k := c];
    }

    /** `Conflict.create`: stored under the next id. */
    method InsertConflict(c: LegacyConflict) returns (stored: LegacyConflict)
      requires Valid()
      modifies this
      ensures Valid()
      ensures stored == c.(id := old(nextId))
      ensures conflicts == old(conflicts) + [stored] && nextId == old(nextId) + 1
      ensures contacts == old(contacts) && jobs == old(jobs) && failedJobs == old(failedJobs)
    {
      stored := c.(id := nextId);
      conflicts := conflicts + [stored];
      nextId := nextId + 1;
    }

    /** `conflict.save()` on the conflict at `k`. */
    method PutConflict(k: nat, c: LegacyConflict)
      requires Valid() && k < |conflicts| && c.id == conflicts[k].id
      modifies this
      ensures Valid()
      ensures conflicts == old(conflicts)[k := c]
      ensures contacts == old(contacts) && jobs == old(jobs) && failedJobs == old(failedJobs)
      ensures nextId == old(nextId)
    {
      conflicts := conflicts[k := c];
    }

    /** `syncQueue.add(job)`. */
    method Enqueue(job: Job)
      modifies this
      ensures jobs == old(jobs) + [job]
      ensures contacts == old(contacts) && conflicts == old(conflicts)
      ensures failedJobs == old(failedJobs) && nextId == old(nextId)
    {
      jobs := jobs + [job];
    }

    /** The queue hands the oldest waiting job to the worker. */
    method TakeJob() returns (job: Job)
      requires |jobs| > 0
      modifies this
      ensures job == old(jobs)[0] && jobs == old(jobs)[1..]
      ensures contacts == old(contacts) && conflicts == old(conflicts)
      ensures failedJobs == old(failedJobs) && nextId == old(nextId)
    {
      job := jobs[0];
      jobs := jobs[1..];
    }

    /** The queue records a job whose handler threw. */
    method RecordFailure()
      modifies this
      ensures failedJobs == old(failedJobs) + 1
      ensures contacts == old(contacts) && conflicts == old(conflicts)
      ensures jobs == old(jobs) && nextId == old(nextId)
    {
      failedJobs := failedJobs + 1;
    }
  }
}
