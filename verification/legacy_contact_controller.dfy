/** The legacy REST controller (backend/controllers/contactController.js):
    create and update a contact and queue a `local_update` job for it, list
    and count the pending conflicts, and resolve a conflict by keeping the
    local or the HubSpot version. */
module LegacyContactController {
  import opened Common
  import opened Text
  import opened LegacyModels

  /** The fields of a request body the controller hands to the model; a
      field the body leaves out is `None`. */
  datatype LegacyInput = LegacyInput(
    email: Option<string>,
    firstName: Option<string>,
    lastName: Option<string>,
    phone: Option<string>)

  /** The error texts of the replies. The validation, duplicate-key and
      server-side texts stand for the messages of the database driver. */
  const ValidationFailed := "Contact validation failed: email: Path `email` is required."
  const DuplicateKey := "E11000 duplicate key error collection: contacts index: email_1"
  const ContactNotFound := "Contact not found"
  const ConflictNotFound := "Conflict not found"
  const ImmutableId := "Performing an update on the path '_id' would modify the immutable field '_id'"
  const NullContact := "Cannot read properties of null (reading '_id')"
  const ConflictResolved := "Conflict resolved successfully"

  /** The job both write paths queue for the contact they saved. */
  function PushJob(id: Id): (j: Job)
    ensures j.trigger == LocalUpdate && j.contactId == Some(id) && j.hubspotContact.None?
  {
    Job(LocalUpdate, Some(id), None)
  }

  // ---------------------------------------------------------------------
  // createContact and updateContact

  /** `createContact`: `new Contact(body).save()`, then one `local_update`
      job; a failed save answers 400 and queues nothing. */
  function CreateSpec(t: LegacyTables, input: LegacyInput, now: Time): (Reply<LegacyContact>, LegacyTables) {
    var c := NewLegacyContact(t.nextId, input.email.GetOr(""), input.firstName, input.lastName, input.phone, None, now);
    match LegacySave(c, now)
    case None => (Failure(400, ValidationFailed), t)
    case Some(s) =>
      if EmailTaken(t.contacts, s.email, None) then (Failure(400, DuplicateKey), t)
      else (Success(201, s), t.(contacts := t.contacts + [s], nextId := t.nextId + 1, jobs := t.jobs + [PushJob(s.id)]))
  }

  method CreateContact(db: LegacyDatabase, input: LegacyInput, now: Time) returns (r: Reply<LegacyContact>)
    requires db.Valid()
    modifies db
    ensures db.Valid()
    ensures (r, db.State()) == CreateSpec(old(db.State()), input, now)
  {
    var c := NewLegacyContact(db.nextId, input.email.GetOr(""), input.firstName, input.lastName, input.phone, None, now);
    var saved := db.InsertContact(c, now);
    if saved.None? {
      if LegacySave(c, now).None? {
        return Failure(400, ValidationFailed);
      }
      return Failure(400, DuplicateKey);
    }
    db.Enqueue(PushJob(saved.value.id));
    r := Success(201, saved.value);
  }

  /** The stored contact after `findByIdAndUpdate(id, body)`: the fields the
      body gives are set, the e-mail through its trim setter; the update
      query bypasses the pre-save hook. */
  function Edited(c: LegacyContact, input: LegacyInput): (e: LegacyContact)
    ensures e.id == c.id && e.hubspotId == c.hubspotId && e.lastModified == c.lastModified
    ensures e.email == if input.email.Some? then Trim(input.email.value) else c.email
    ensures e.firstName == if input.firstName.Some? then input.firstName else c.firstName
    ensures e.lastName == if input.lastName.Some? then input.lastName else c.lastName
    ensures e.phone == if input.phone.Some? then input.phone else c.phone
  {
    c.(email := if input.email.Some? then Trim(input.email.value) else c.email,
       firstName := if input.firstName.Some? then input.firstName else c.firstName,
       lastName := if input.lastName.Some? then input.lastName else c.lastName,
       phone := if input.phone.Some? then input.phone else c.phone)
  }

  /** `updateContact`: an unknown id answers 404; an e-mail another contact
      holds is refused by the unique index with 400; otherwise the contact
      is updated and one `local_update` job is queued. */
  function UpdateSpec(t: LegacyTables, id: Id, input: LegacyInput): (Reply<LegacyContact>, LegacyTables) {
    match FindLegacyContact(t.contacts, id)
    case None => (Failure(404, ContactNotFound), t)
    case Some(k) =>
      var e := Edited(t.contacts[k], input);
      if EmailTaken(t.contacts, e.email, Some(k)) then (Failure(400, DuplicateKey), t)
      else (Success(200, e), t.(contacts := t.contacts[k := e], jobs := t.jobs + [PushJob(id)]))
  }

  method UpdateContact(db: LegacyDatabase, id: Id, input: LegacyInput) returns (r: Reply<LegacyContact>)
    requires db.Valid()
    modifies db
    ensures db.Valid()
    ensures (r, db.State()) == UpdateSpec(old(db.State()), id, input)
  {
    var found := FindLegacyContact(db.contacts, id);
    if found.None? {
      return Failure(404, ContactNotFound);
    }
    var k := found.value;
    var e := Edited(db.contacts[k], input);
    if EmailTaken(db.contacts, e.email, Some(k)) {
      return Failure(400, DuplicateKey);
    }
    if input.email.Some? {
      TrimmedEnds(input.email.value);
    }
    db.UpdateContactAt(k, e);
    db.Enqueue(PushJob(id));
    r := Success(200, e);
  }

  // ---------------------------------------------------------------------
  // getConflicts and getStats

  predicate IsPending(c: LegacyConflict) {
    c.status == PendingManualResolution
  }

  /** `getConflicts`: the conflicts still pending manual resolution, in
      store order. */
  function PendingConflicts(t: LegacyTables): (r: seq<LegacyConflict>)
    ensures forall c :: c in r ==> c in t.conflicts && IsPending(c)
    ensures forall c :: c in t.conflicts && IsPending(c) ==> c in r
  {
    Filter(t.conflicts, IsPending)
  }

  datatype Stats = Stats(totalContacts: nat, pendingConflicts: nat, failedSyncs: nat)

  /** `getStats`: the number of contacts, of pending conflicts and of jobs
      the queue counts as failed. */
  function GetStats(t: LegacyTables): Stats {
    Stats(|t.contacts|, Count(t.conflicts, IsPending), t.failedJobs)
  }

  /** The dashboard counts exactly the conflicts the list shows. */
  lemma StatsMatchConflictList(t: LegacyTables)
    ensures GetStats(t).pendingConflicts == |PendingConflicts(t)|
    ensures GetStats(t).pendingConflicts == 0 <==> PendingConflicts(t) == []
  {
  }

  // ---------------------------------------------------------------------
  // resolveConflict

  /** The contact after "local": `updateOne` with the spread of the stored
      local document and `lastModified` now. Fields the document lacks are
      left alone; the e-mail goes through its trim setter. */
  function KeptLocal(c: LegacyContact, data: LegacyContact, now: Time): (e: LegacyContact)
    ensures e.id == c.id && e.email == Trim(data.email) && e.hubspotId == data.hubspotId && e.lastModified == now
    ensures e.firstName == if data.firstName.Some? then data.firstName else c.firstName
    ensures e.lastName == if data.lastName.Some? then data.lastName else c.lastName
    ensures e.phone == if data.phone.Some? then data.phone else c.phone
  {
    c.(email := Trim(data.email),
       firstName := if data.firstName.Some? then data.firstName else c.firstName,
       lastName := if data.lastName.Some? then data.lastName else c.lastName,
       phone := if data.phone.Some? then data.phone else c.phone,
       hubspotId := data.hubspotId,
       lastModified := now)
  }

  /** The contact after "hubspot": `updateOne` with HubSpot's names and
      phone and `lastModified` now; an absent property is dropped from the
      update and leaves the field alone. */
  function KeptHubSpot(c: LegacyContact, hs: HsContact, now: Time): (e: LegacyContact)
    ensures e.id == c.id && e.email == c.email && e.hubspotId == c.hubspotId && e.lastModified == now
    ensures e.firstName == if hs.properties.firstname.Some? then hs.properties.firstname else c.firstName
    ensures e.lastName == if hs.properties.lastname.Some? then hs.properties.lastname else c.lastName
    ensures e.phone == if hs.properties.phone.Some? then hs.properties.phone else c.phone
  {
    c.(firstName := if hs.properties.firstname.Some? then hs.properties.firstname else c.firstName,
       lastName := if hs.properties.lastname.Some? then hs.properties.lastname else c.lastName,
       phone := if hs.properties.phone.Some? then hs.properties.phone else c.phone,
       lastModified := now)
  }

  /** The "local" branch: overwrite the contact holding the conflict's
      e-mail with the local document, read it back and queue a push. The
      error, if any, is what makes the handler answer 500. */
  function KeepLocalSpec(t: LegacyTables, c: LegacyConflict, now: Time): (Option<string>, LegacyTables) {
    match FindByEmail(t.contacts, c.contactEmail)
    case None => (Some(NullContact), t)
    case Some(j) =>
      if t.contacts[j].id != c.localData.id then (Some(ImmutableId), t)
      else if EmailTaken(t.contacts, Trim(c.localData.email), Some(j)) then (Some(DuplicateKey), t)
      else
        var t1 := t.(contacts := t.contacts[j := KeptLocal(t.contacts[j], c.localData, now)]);
        match FindByEmail(t1.contacts, c.contactEmail)
        case None => (Some(NullContact), t1)
        case Some(i) => (None, t1.(jobs := t1.jobs + [PushJob(t1.contacts[i].id)]))
  }

  /** The "hubspot" branch: copy HubSpot's fields into the contact holding
      the conflict's e-mail, if there is one; nothing is pushed. */
  function KeepHubSpotSpec(t: LegacyTables, c: LegacyConflict, now: Time): LegacyTables {
    match FindByEmail(t.contacts, c.contactEmail)
    case None => t
    case Some(j) => t.(contacts := t.contacts[j := KeptHubSpot(t.contacts[j], c.hubspotData, now)])
  }

  /** `resolveConflict`: an unknown conflict answers 404; otherwise the
      chosen version is applied ("local", "hubspot", anything else: nothing)
      and the conflict is marked resolved, whatever its status was. */
  function ResolveSpec(t: LegacyTables, conflictId: Option<Id>, version: Option<string>, now: Time)
    : (Reply<string>, LegacyTables)
  {
    var found := if conflictId.None? then None else FindLegacyConflict(t.conflicts, conflictId.value);
    if found.None? then (Failure(404, ConflictNotFound), t)
    else
      var c := t.conflicts[found.value];
      var (err, t1) :=
        if version == Some("local") then KeepLocalSpec(t, c, now)
        else if version == Some("hubspot") then (None, KeepHubSpotSpec(t, c, now))
        else (None, t);
      if err.Some? then (Failure(500, err.value), t1)
      else (Success(200, ConflictResolved), t1.(conflicts := t1.conflicts[found.value := c.(status := Resolved)]))
  }

  method KeepLocal(db: LegacyDatabase, c: LegacyConflict, now: Time) returns (err: Option<string>)
    requires db.Valid()
    modifies db
    ensures db.Valid()
    ensures (err, db.State()) == KeepLocalSpec(old(db.State()), c, now)
  {
    var found := FindByEmail(db.contacts, c.contactEmail);
    if found.None? {
      return Some(NullContact);
    }
    var j := found.value;
    if db.contacts[j].id != c.localData.id {
      return Some(ImmutableId);
    }
    if EmailTaken(db.contacts, Trim(c.localData.email), Some(j)) {
      return Some(DuplicateKey);
    }
    TrimmedEnds(c.localData.email);
    db.UpdateContactAt(j, KeptLocal(db.contacts[j], c.localData, now));
    var again := FindByEmail(db.contacts, c.contactEmail);
    if again.None? {
      return Some(NullContact);
    }
    db.Enqueue(PushJob(db.contacts[again.value].id));
    err := None;
  }

  method KeepHubSpot(db: LegacyDatabase, c: LegacyConflict, now: Time)
    requires db.Valid()
    modifies db
    ensures db.Valid()
    ensures db.State() == KeepHubSpotSpec(old(db.State()), c, now)
  {
    var found := FindByEmail(db.contacts, c.contactEmail);
    if found.Some? {
      var j := found.value;
      db.UpdateContactAt(j, KeptHubSpot(db.contacts[j], c.hubspotData, now));
    }
  }

  method ResolveConflict(db: LegacyDatabase, conflictId: Option<Id>, version: Option<string>, now: Time)
    returns (r: Reply<string>)
    requires db.Valid()
    modifies db
    ensures db.Valid()
    ensures (r, db.State()) == ResolveSpec(old(db.State()), conflictId, version, now)
  {
    var found := None;
    if conflictId.Some? {
      found := FindLegacyConflict(db.conflicts, conflictId.value);
    }
    if found.None? {
      return Failure(404, ConflictNotFound);
    }
    var k := found.value;
    var c := db.conflicts[k];
    var err := None;
    if version == Some("local") {
      err := KeepLocal(db, c, now);
    } else if version == Some("hubspot") {
      KeepHubSpot(db, c, now);
    }
    if err.Some? {
      return Failure(500, err.value);
    }
    db.PutConflict(k, c.(status := Resolved));
    r := Success(200, ConflictResolved);
  }

  // ---------------------------------------------------------------------
  // Properties

  /** A create succeeds exactly when the trimmed e-mail is non-empty and no
      contact holds it; it then stores the contact under the next id and
      queues exactly one `local_update` job for it. A refused create answers
      400 and changes nothing, queue included. */
  lemma CreateQueuesOnePush(t: LegacyTables, input: LegacyInput, now: Time)
    ensures var email := Trim(input.email.GetOr(""));
            CreateSpec(t, input, now).0.Success? <==> email != "" && !EmailTaken(t.contacts, email, None)
    ensures CreateSpec(t, input, now).0.Success? ==>
              && CreateSpec(t, input, now).0.code == 201
              && CreateSpec(t, input, now).0.body
                 == LegacyContact(t.nextId, Trim(input.email.GetOr("")), input.firstName, input.lastName, input.phone, None, now)
              && CreateSpec(t, input, now).1.contacts == t.contacts + [CreateSpec(t, input, now).0.body]
              && CreateSpec(t, input, now).1.jobs == t.jobs + [PushJob(t.nextId)]
    ensures CreateSpec(t, input, now).0.Failure? ==>
              CreateSpec(t, input, now).0.code == 400 && CreateSpec(t, input, now).1 == t
  {
  }

  /** An update of an unknown id answers 404 and queues nothing; a
      successful one queues exactly one `local_update` job for that id and
      leaves `lastModified` and the HubSpot id as they were. */
  lemma UpdateQueuesOnePush(t: LegacyTables, id: Id, input: LegacyInput)
    ensures FindLegacyContact(t.contacts, id).None? ==> UpdateSpec(t, id, input) == (Failure(404, ContactNotFound), t)
    ensures UpdateSpec(t, id, input).0.Success? ==>
              && FindLegacyContact(t.contacts, id).Some?
              && UpdateSpec(t, id, input).1.jobs == t.jobs + [PushJob(id)]
              && UpdateSpec(t, id, input).0.body.lastModified == t.contacts[FindLegacyContact(t.contacts, id).value].lastModified
              && UpdateSpec(t, id, input).0.body.hubspotId == t.contacts[FindLegacyContact(t.contacts, id).value].hubspotId
    ensures UpdateSpec(t, id, input).0.Failure? ==> UpdateSpec(t, id, input).1 == t
  {
  }

  /** An unknown (or absent) conflict id answers 404 and changes nothing. */
  lemma ResolveUnknown(t: LegacyTables, conflictId: Option<Id>, version: Option<string>, now: Time)
    requires conflictId.None? || FindLegacyConflict(t.conflicts, conflictId.value).None?
    ensures ResolveSpec(t, conflictId, version, now) == (Failure(404, ConflictNotFound), t)
  {
  }

  /** Any version other than "local" resolves a known conflict — even one
      already resolved, and even an unrecognised version that changes no
      contact; only the conflict's status changes besides the contacts. */
  lemma ResolveAlwaysResolves(t: LegacyTables, k: nat, version: Option<string>, now: Time)
    requires k < |t.conflicts| && FindLegacyConflict(t.conflicts, t.conflicts[k].id) == Some(k)
    requires version != Some("local")
    ensures var (r, t') := ResolveSpec(t, Some(t.conflicts[k].id), version, now);
            && r == Success(200, ConflictResolved)
            && t'.conflicts == t.conflicts[k := t.conflicts[k].(status := Resolved)]
            && t'.jobs == t.jobs && t'.nextId == t.nextId
    ensures version != Some("hubspot") ==> ResolveSpec(t, Some(t.conflicts[k].id), version, now).1.contacts == t.contacts
  {
  }

  /** There is no already-resolved check: resolving the same conflict a
      second time succeeds again. */
  lemma ResolveTwice(t: LegacyTables, k: nat, version: Option<string>, now: Time, later: Time)
    requires k < |t.conflicts| && FindLegacyConflict(t.conflicts, t.conflicts[k].id) == Some(k)
    requires version != Some("local")
    ensures var t1 := ResolveSpec(t, Some(t.conflicts[k].id), version, now).1;
            ResolveSpec(t1, Some(t.conflicts[k].id), version, later).0 == Success(200, ConflictResolved)
  {
    var id := t.conflicts[k].id;
    ResolveAlwaysResolves(t, k, version, now);
    var t1 := ResolveSpec(t, Some(id), version, now).1;
    assert t1.conflicts[k].id == id;
    assert FindLegacyConflict(t1.conflicts, id) == Some(k) by {
      forall i | 0 <= i < k ensures t1.conflicts[i].id != id {
        assert t1.conflicts[i] == t.conflicts[i];
      }
    }
    ResolveAlwaysResolves(t1, k, version, later);
  }

  /** "local" on a contact that still holds the conflict's e-mail and its
      id: the contact takes the local document, `lastModified` becomes now,
      one `local_update` job is queued for it, and the conflict is resolved. */
  lemma ResolveKeepLocal(t: LegacyTables, k: nat, j: nat, now: Time)
    requires LegacyWellFormed(t)
    requires k < |t.conflicts| && FindLegacyConflict(t.conflicts, t.conflicts[k].id) == Some(k)
    requires FindByEmail(t.contacts, t.conflicts[k].contactEmail) == Some(j)
    requires t.contacts[j].id == t.conflicts[k].localData.id
    requires Trim(t.conflicts[k].localData.email) == t.contacts[j].email
    requires !EmailTaken(t.contacts, t.contacts[j].email, Some(j))
    ensures var (r, t') := ResolveSpec(t, Some(t.conflicts[k].id), Some("local"), now);
            && r == Success(200, ConflictResolved)
            && t'.contacts == t.contacts[j := KeptLocal(t.contacts[j], t.conflicts[k].localData, now)]
            && t'.jobs == t.jobs + [PushJob(t.contacts[j].id)]
            && t'.conflicts == t.conflicts[k := t.conflicts[k].(status := Resolved)]
  {
    var c := t.conflicts[k];
    var t1 := t.(contacts := t.contacts[j := KeptLocal(t.contacts[j], c.localData, now)]);
    forall i | 0 <= i < j ensures t1.contacts[i].email != Trim(c.contactEmail) {
      assert t1.contacts[i] == t.contacts[i];
    }
    FindByEmailAt(t1.contacts, c.contactEmail, j);
  }

  /** "hubspot" copies HubSpot's names and phone into the contact holding
      the conflict's e-mail, stamps it now, queues no push, and resolves the
      conflict; with no such contact only the conflict changes. */
  lemma ResolveKeepHubSpot(t: LegacyTables, k: nat, now: Time)
    requires k < |t.conflicts| && FindLegacyConflict(t.conflicts, t.conflicts[k].id) == Some(k)
    ensures var (r, t') := ResolveSpec(t, Some(t.conflicts[k].id), Some("hubspot"), now);
            && r == Success(200, ConflictResolved)
            && t'.jobs == t.jobs
            && t'.conflicts[k].status == Resolved
            && |t'.contacts| == |t.contacts|
    ensures var t' := ResolveSpec(t, Some(t.conflicts[k].id), Some("hubspot"), now).1;
            match FindByEmail(t.contacts, t.conflicts[k].contactEmail)
            case None => t'.contacts == t.contacts
            case Some(j) => t'.contacts == t.contacts[j := KeptHubSpot(t.contacts[j], t.conflicts[k].hubspotData, now)]
  {
  }

  /** Resolving a pending conflict lowers the dashboard's pending count by
      one; resolving one already resolved leaves it. */
  lemma {:induction false} ResolvingCountsDown(cs: seq<LegacyConflict>, k: nat)
    requires k < |cs|
    ensures Count(cs[k := cs[k].(status := Resolved)], IsPending)
            == Count(cs, IsPending) - (if IsPending(cs[k]) then 1 else 0)
    decreases |cs|
  {
    var cs' := cs[k := cs[k].(status := Resolved)];
    var n := |cs| - 1;
    if k == n {
      assert cs'[..n] == cs[..n];
    } else {
      assert cs'[..n] == cs[..n][k := cs[k].(status := Resolved)];
      ResolvingCountsDown(cs[..n], k);
    }
  }
}
