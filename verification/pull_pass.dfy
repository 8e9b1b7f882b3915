/** The pull pass `syncHubSpotToLocal` (backend/src/services/syncService.js):
    each recently modified HubSpot contact is matched to a local contact by
    external id, then by lower-cased e-mail, and otherwise created; a matched
    contact that is `pending` and was modified after the watermark raises a
    conflict instead of being overwritten. Companies follow the same pattern
    without the e-mail step and without log entries.

    The records HubSpot returns are a parameter. An error thrown while one
    record is handled (a failed validation on save) is caught and the loop
    goes on with the next record, so such a record changes nothing. */
module PullPass {
  import opened Common
  import opened Text
  import opened Models
  import opened Store
  import opened Payloads
  import ContactsController

  /** One result of a HubSpot search: its id, its `properties` (a property
      HubSpot leaves out is absent), and its last-modified property read as
      a date (`None` when it does not parse). */
  datatype RemoteRecord = RemoteRecord(id: string, properties: Properties, modifiedAt: Option<Time>)

  /** `props.key`. */
  function Prop(r: RemoteRecord, key: string): (v: Option<string>)
    ensures v.Some? <==> key in r.properties
    ensures v.Some? ==> v.value == r.properties[key]
  {
    if key in r.properties then Some(r.properties[key]) else None
  }

  /** The name the pull builds: `[firstname || '', lastname || ''].join(' ').trim()`. */
  function RemoteName(r: RemoteRecord): string {
    HsName(Prop(r, "firstname"), Prop(r, "lastname"))
  }

  /** The conflict test: the local record is `pending` and was modified after
      the watermark (the epoch when there is none). */
  predicate ContactConflicts(c: Contact, watermark: Option<Time>) {
    c.syncStatus == Pending && c.lastModified > watermark.GetOr(0)
  }

  predicate CompanyConflicts(c: Company, watermark: Option<Time>) {
    c.syncStatus == Pending && c.lastModified > watermark.GetOr(0)
  }

  // ---------------------------------------------------------------------
  // Contacts: one record

  /** The `localData` of a contact conflict. */
  function LocalContactSnapshot(c: Contact): Snapshot {
    Snapshot(Some(c.name), Some(c.email), Some(c.phone), Some(c.company), None, None, Some(c.lastModified))
  }

  /** The `remoteData` of a contact conflict. */
  function RemoteContactSnapshot(r: RemoteRecord): Snapshot {
    Snapshot(Some(RemoteName(r)), Prop(r, "email"), Some(OrEmpty(Prop(r, "phone"))),
             Some(OrEmpty(Prop(r, "company"))), None, None, r.modifiedAt)
  }

  /** The entry written with a contact conflict. */
  function ConflictLog(id: Id, now: Time): SyncLog {
    SyncLog(ContactType, id, ConflictDetected, LogSuccess, "Conflict detected - both local and remote modified", now)
  }

  /** The entry written after a contact is pulled into an existing record. */
  function PullLog(id: Id, now: Time): SyncLog {
    SyncLog(ContactType, id, Pull, LogSuccess, "Pulled from HubSpot", now)
  }

  /** A contact matched by external id, overwritten with the remote values
      (before the save's setters). */
  function UpdatedContact(c: Contact, r: RemoteRecord): Contact {
    c.(name := if RemoteName(r) != "" then RemoteName(r) else c.name,
       email := if Present(Prop(r, "email")) then Prop(r, "email").value else c.email,
       phone := OrEmpty(Prop(r, "phone")), company := OrEmpty(Prop(r, "company")),
       syncStatus := Synced)
  }

  /** A contact matched by e-mail, linked to the remote record (its e-mail is
      kept). */
  function LinkedContact(c: Contact, r: RemoteRecord): Contact {
    c.(externalId := Some(r.id),
       name := if RemoteName(r) != "" then RemoteName(r) else c.name,
       phone := OrEmpty(Prop(r, "phone")), company := OrEmpty(Prop(r, "company")),
       syncStatus := Synced)
  }

  /** The contact `Contact.create` builds from a remote record with an
      e-mail (its id is given by the store). */
  function RemoteContact(r: RemoteRecord, now: Time): Contact
    requires Present(Prop(r, "email"))
  {
    NewContact(0, if RemoteName(r) != "" then RemoteName(r) else "Unknown", Prop(r, "email").value, now)
      .(phone := OrEmpty(Prop(r, "phone")), company := OrEmpty(Prop(r, "company")),
        externalId := Some(r.id), syncStatus := Synced)
  }

  /** A conflict is recorded, with a `conflict_detected` entry, and the
      contact is left alone. */
  function ContactConflictSpec(t: Tables, k: nat, r: RemoteRecord, now: Time): Tables
    requires k < |t.contacts|
  {
    var c := t.contacts[k];
    t.(conflicts := t.conflicts + [NewConflict(t.nextId, ContactType, c.id, LocalContactSnapshot(c), RemoteContactSnapshot(r), now)],
       nextId := t.nextId + 1,
       logs := t.logs + [ConflictLog(c.id, now)])
  }

  /** The contact at `k` is saved as `u`, then a `pull` entry is written;
      when the save fails validation nothing changes. */
  function SaveAndLog(t: Tables, k: nat, u: Contact, now: Time): Tables
    requires k < |t.contacts|
  {
    match SaveContact(u)
    case None => t
    case Some(s) => t.(contacts := t.contacts[k := s], logs := t.logs + [PullLog(t.contacts[k].id, now)])
  }

  /** A new contact is created; the `pull` entry that follows has no entity
      id, fails validation and is not written. */
  function CreateContactSpec(t: Tables, r: RemoteRecord, now: Time): Tables
    requires Present(Prop(r, "email"))
  {
    match SaveContact(RemoteContact(r, now).(id := t.nextId))
    case None => t
    case Some(s) => t.(contacts := t.contacts + [s], nextId := t.nextId + 1)
  }

  /** A record no local contact is linked to: linked by e-mail, created, or
      (without an e-mail) ignored. */
  function UnmatchedContactSpec(t: Tables, r: RemoteRecord, now: Time): Tables {
    if !Present(Prop(r, "email")) then t
    else
      match FindContactByEmail(t.contacts, ToLower(Prop(r, "email").value))
      case Some(k) => SaveAndLog(t, k, LinkedContact(t.contacts[k], r), now)
      case None => CreateContactSpec(t, r, now)
  }

  /** One iteration of the contact loop. */
  function PullContactSpec(t: Tables, r: RemoteRecord, watermark: Option<Time>, now: Time): Tables {
    match FindContactByExternalId(t.contacts, r.id)
    case Some(k) =>
      if ContactConflicts(t.contacts[k], watermark) then ContactConflictSpec(t, k, r, now)
      else SaveAndLog(t, k, UpdatedContact(t.contacts[k], r), now)
    case None => UnmatchedContactSpec(t, r, now)
  }

  /** The database once the contact loop has handled the first `n` records. */
  function PulledContacts(t: Tables, rs: seq<RemoteRecord>, n: nat, watermark: Option<Time>, now: Time): Tables
    requires n <= |rs|
  {
    if n == 0 then t
    else PullContactSpec(PulledContacts(t, rs, n - 1, watermark, now), rs[n - 1], watermark, now)
  }

  // ---------------------------------------------------------------------
  // Companies: one record

  /** The `localData` of a company conflict. */
  function LocalCompanySnapshot(c: Company): Snapshot {
    Snapshot(Some(c.name), None, None, None, Some(c.domain), Some(c.industry), Some(c.lastModified))
  }

  /** The `remoteData` of a company conflict: the name as HubSpot gives it,
      possibly undefined. */
  function RemoteCompanySnapshot(r: RemoteRecord): Snapshot {
    Snapshot(Prop(r, "name"), None, None, None, Some(OrEmpty(Prop(r, "domain"))),
             Some(OrEmpty(Prop(r, "industry"))), r.modifiedAt)
  }

  /** A company matched by external id, overwritten with the remote values. */
  function UpdatedCompany(c: Company, r: RemoteRecord): Company {
    c.(name := if Present(Prop(r, "name")) then Prop(r, "name").value else c.name,
       domain := OrEmpty(Prop(r, "domain")), industry := OrEmpty(Prop(r, "industry")),
       syncStatus := Synced)
  }

  /** The company `Company.create` builds from a remote record with a name. */
  function RemoteCompany(r: RemoteRecord, now: Time): Company
    requires Present(Prop(r, "name"))
  {
    NewCompany(0, Prop(r, "name").value, now)
      .(domain := OrEmpty(Prop(r, "domain")), industry := OrEmpty(Prop(r, "industry")),
        externalId := Some(r.id), syncStatus := Synced)
  }

  /** A company conflict is recorded (with no log entry) and the company is
      left alone. */
  function CompanyConflictSpec(t: Tables, k: nat, r: RemoteRecord, now: Time): Tables
    requires k < |t.companies|
  {
    var c := t.companies[k];
    t.(conflicts := t.conflicts + [NewConflict(t.nextId, CompanyType, c.id, LocalCompanySnapshot(c), RemoteCompanySnapshot(r), now)],
       nextId := t.nextId + 1)
  }

  /** The company at `k` is saved as `u`; nothing changes when validation
      fails. */
  function SaveCompanyAt(t: Tables, k: nat, u: Company): Tables
    requires k < |t.companies|
  {
    match SaveCompany(u)
    case None => t
    case Some(s) => t.(companies := t.companies[k := s])
  }

  /** A new company is created from a remote record with a name. */
  function CreateCompanySpec(t: Tables, r: RemoteRecord, now: Time): Tables
    requires Present(Prop(r, "name"))
  {
    match SaveCompany(RemoteCompany(r, now).(id := t.nextId))
    case None => t
    case Some(s) => t.(companies := t.companies + [s], nextId := t.nextId + 1)
  }

  /** One iteration of the company loop; it writes no log entry. */
  function PullCompanySpec(t: Tables, r: RemoteRecord, watermark: Option<Time>, now: Time): Tables {
    match FindCompanyByExternalId(t.companies, r.id)
    case Some(k) =>
      if CompanyConflicts(t.companies[k], watermark) then CompanyConflictSpec(t, k, r, now)
      else SaveCompanyAt(t, k, UpdatedCompany(t.companies[k], r))
    case None =>
      if Present(Prop(r, "name")) then CreateCompanySpec(t, r, now) else t
  }

  /** The database once the company loop has handled the first `n` records. */
  function PulledCompanies(t: Tables, rs: seq<RemoteRecord>, n: nat, watermark: Option<Time>, now: Time): Tables
    requires n <= |rs|
  {
    if n == 0 then t
    else PullCompanySpec(PulledCompanies(t, rs, n - 1, watermark, now), rs[n - 1], watermark, now)
  }

  // ---------------------------------------------------------------------
  // The loops on the database

  /** The conflict branch: `Conflict.create`, then the `conflict_detected`
      entry. */
  method RaiseContactConflict(db: Database, k: nat, r: RemoteRecord, now: Time)
    requires db.Valid() && k < |db.contacts|
    modifies db
    ensures db.Valid()
    ensures db.State() == ContactConflictSpec(old(db.State()), k, r, now)
  {
    var c := db.contacts[k];
    var stored := db.InsertConflict(NewConflict(0, ContactType, c.id, LocalContactSnapshot(c), RemoteContactSnapshot(r), now));
    db.AppendLog(NewSyncLog(ContactType, Some(c.id), ConflictDetected, LogSuccess,
                            "Conflict detected - both local and remote modified", now));
  }

  /** `localContact.save()`, then the `pull` entry; a failed save throws
      before the entry is written. */
  method SaveWithLog(db: Database, k: nat, u: Contact, now: Time)
    requires db.Valid() && k < |db.contacts| && u.id == db.contacts[k].id
    modifies db
    ensures db.Valid()
    ensures db.State() == SaveAndLog(old(db.State()), k, u, now)
  {
    var saved := db.StoreContact(k, u);
    if saved.Some? {
      db.AppendLog(NewSyncLog(ContactType, Some(u.id), Pull, LogSuccess, "Pulled from HubSpot", now));
    }
  }

  /** `Contact.create(...)`, then the `pull` entry with `localContact?._id`
      undefined, which validation rejects. */
  method CreateFromRemote(db: Database, r: RemoteRecord, now: Time)
    requires db.Valid() && Present(Prop(r, "email"))
    modifies db
    ensures db.Valid()
    ensures db.State() == CreateContactSpec(old(db.State()), r, now)
  {
    var saved := db.InsertContact(RemoteContact(r, now));
    if saved.Some? {
      db.AppendLog(NewSyncLog(ContactType, None, Pull, LogSuccess, "Pulled from HubSpot", now));
    }
  }

  /** One iteration of the contact loop. */
  method PullOneContact(db: Database, r: RemoteRecord, watermark: Option<Time>, now: Time)
    requires db.Valid()
    modifies db
    ensures db.Valid()
    ensures db.State() == PullContactSpec(old(db.State()), r, watermark, now)
  {
    var hit := FindContactByExternalId(db.contacts, r.id);
    if hit.Some? {
      var k := hit.value;
      if ContactConflicts(db.contacts[k], watermark) {
        RaiseContactConflict(db, k, r, now);
      } else {
        SaveWithLog(db, k, UpdatedContact(db.contacts[k], r), now);
      }
    } else {
      PullUnmatchedContact(db, r, now);
    }
  }

  /** The branch for a record no local contact is linked to. */
  method PullUnmatchedContact(db: Database, r: RemoteRecord, now: Time)
    requires db.Valid()
    modifies db
    ensures db.Valid()
    ensures db.State() == UnmatchedContactSpec(old(db.State()), r, now)
  {
    if Present(Prop(r, "email")) {
      var byEmail := FindContactByEmail(db.contacts, ToLower(Prop(r, "email").value));
      if byEmail.Some? {
        SaveWithLog(db, byEmail.value, LinkedContact(db.contacts[byEmail.value], r), now);
      } else {
        CreateFromRemote(db, r, now);
      }
    } else {
      db.AppendLog(NewSyncLog(ContactType, None, Pull, LogSuccess, "Pulled from HubSpot", now));
    }
  }

  /** The company conflict branch: `Conflict.create` only. */
  method RaiseCompanyConflict(db: Database, k: nat, r: RemoteRecord, now: Time)
    requires db.Valid() && k < |db.companies|
    modifies db
    ensures db.Valid()
    ensures db.State() == CompanyConflictSpec(old(db.State()), k, r, now)
  {
    var c := db.companies[k];
    var stored := db.InsertConflict(NewConflict(0, CompanyType, c.id, LocalCompanySnapshot(c), RemoteCompanySnapshot(r), now));
  }

  /** `localCompany.save()`. */
  method SaveCompanyFromRemote(db: Database, k: nat, r: RemoteRecord)
    requires db.Valid() && k < |db.companies|
    modifies db
    ensures db.Valid()
    ensures db.State() == SaveCompanyAt(old(db.State()), k, UpdatedCompany(old(db.companies)[k], r))
  {
    var saved := db.StoreCompany(k, UpdatedCompany(db.companies[k], r));
  }

  /** `Company.create(...)`. */
  method CreateCompanyFromRemote(db: Database, r: RemoteRecord, now: Time)
    requires db.Valid() && Present(Prop(r, "name"))
    modifies db
    ensures db.Valid()
    ensures db.State() == CreateCompanySpec(old(db.State()), r, now)
  {
    var saved := db.InsertCompany(RemoteCompany(r, now));
  }

  /** One iteration of the company loop. */
  method PullOneCompany(db: Database, r: RemoteRecord, watermark: Option<Time>, now: Time)
    requires db.Valid()
    modifies db
    ensures db.Valid()
    ensures db.State() == PullCompanySpec(old(db.State()), r, watermark, now)
  {
    var hit := FindCompanyByExternalId(db.companies, r.id);
    if hit.Some? {
      if CompanyConflicts(db.companies[hit.value], watermark) {
        RaiseCompanyConflict(db, hit.value, r, now);
      } else {
        SaveCompanyFromRemote(db, hit.value, r);
      }
    } else if Present(Prop(r, "name")) {
      CreateCompanyFromRemote(db, r, now);
    }
  }

  /** The contact loop over the records HubSpot returned. */
  method PullContacts(db: Database, rs: seq<RemoteRecord>, watermark: Option<Time>, now: Time)
    requires db.Valid()
    modifies db
    ensures db.Valid()
    ensures db.State() == PulledContacts(old(db.State()), rs, |rs|, watermark, now)
  {
    ghost var t := db.State();
    var i := 0;
    while i < |rs|
      invariant db.Valid() && 0 <= i <= |rs|
      invariant db.State() == PulledContacts(t, rs, i, watermark, now)
    {
      PullOneContact(db, rs[i], watermark, now);
      i := i + 1;
    }
  }

  /** The company loop over the records HubSpot returned. */
  method PullCompanies(db: Database, rs: seq<RemoteRecord>, watermark: Option<Time>, now: Time)
    requires db.Valid()
    modifies db
    ensures db.Valid()
    ensures db.State() == PulledCompanies(old(db.State()), rs, |rs|, watermark, now)
  {
    ghost var t := db.State();
    var i := 0;
    while i < |rs|
      invariant db.Valid() && 0 <= i <= |rs|
      invariant db.State() == PulledCompanies(t, rs, i, watermark, now)
    {
      PullOneCompany(db, rs[i], watermark, now);
      i := i + 1;
    }
  }

  // ---------------------------------------------------------------------
  // Properties of one contact record

  /** A remote e-mail that is given and truthy but blank once trimmed: the
      only value that makes a pulled save fail validation. */
  predicate BlankRemoteEmail(r: RemoteRecord) {
    Present(Prop(r, "email")) && Trim(Prop(r, "email").value) == ""
  }

  /** The pulled name is already trimmed. */
  lemma RemoteNameTrimmed(r: RemoteRecord)
    ensures Trim(RemoteName(r)) == RemoteName(r)
  {
    TrimIdempotent(OrEmpty(Prop(r, "firstname")) + " " + OrEmpty(Prop(r, "lastname")));
  }

  /** A stored contact's name and e-mail are their own normal forms. */
  lemma StoredFieldsNormal(c: Contact)
    requires ContactInSchema(c)
    ensures Trim(c.name) == c.name && ToLower(Trim(c.email)) == c.email
  {
    TrimmedIff(c.name);
    TrimmedIff(c.email);
    LowerIff(c.email);
  }

  /** A record matched by external id whose local contact is `pending` and
      newer than the watermark leaves every record as it is and adds exactly
      one unresolved conflict holding both snapshots, with one
      `conflict_detected` entry. */
  lemma PullConflictRule(t: Tables, r: RemoteRecord, watermark: Option<Time>, now: Time, k: nat)
    requires FindContactByExternalId(t.contacts, r.id) == Some(k)
    requires ContactConflicts(t.contacts[k], watermark)
    ensures PullContactSpec(t, r, watermark, now).contacts == t.contacts
    ensures PullContactSpec(t, r, watermark, now).companies == t.companies
    ensures PullContactSpec(t, r, watermark, now).conflicts
            == t.conflicts + [Conflict(t.nextId, ContactType, t.contacts[k].id, LocalContactSnapshot(t.contacts[k]),
                                       RemoteContactSnapshot(r), now, false, None, None)]
    ensures PullContactSpec(t, r, watermark, now).logs
            == t.logs + [SyncLog(ContactType, t.contacts[k].id, ConflictDetected, LogSuccess,
                                 "Conflict detected - both local and remote modified", now)]
    ensures PullContactSpec(t, r, watermark, now).nextId == t.nextId + 1
  {
  }

  /** A record matched by external id without a conflict overwrites the
      local contact: the name and e-mail only when the remote ones are
      truthy, phone and company always (with `''` for a missing value), and
      the contact becomes `synced` with one `pull` entry; its external id,
      `lastModified` and retry count stay. Only a blank remote e-mail makes
      the save fail, and then nothing changes. */
  lemma PullUpdateRule(t: Tables, r: RemoteRecord, watermark: Option<Time>, now: Time, k: nat)
    requires WellFormed(t)
    requires FindContactByExternalId(t.contacts, r.id) == Some(k)
    requires !ContactConflicts(t.contacts[k], watermark)
    ensures BlankRemoteEmail(r) ==> PullContactSpec(t, r, watermark, now) == t
    ensures !BlankRemoteEmail(r) ==>
              PullContactSpec(t, r, watermark, now)
              == t.(contacts := t.contacts[k := t.contacts[k].(
                      name := if RemoteName(r) != "" then RemoteName(r) else t.contacts[k].name,
                      email := if Present(Prop(r, "email")) then ToLower(Trim(Prop(r, "email").value)) else t.contacts[k].email,
                      phone := Trim(OrEmpty(Prop(r, "phone"))), company := Trim(OrEmpty(Prop(r, "company"))),
                      syncStatus := Synced)],
                    logs := t.logs + [SyncLog(ContactType, t.contacts[k].id, Pull, LogSuccess, "Pulled from HubSpot", now)])
  {
    RemoteNameTrimmed(r);
    StoredFieldsNormal(t.contacts[k]);
  }

  /** A record with an e-mail and no linked contact is linked to the contact
      with that (lower-cased) e-mail, if any, whatever that contact's status:
      it takes the remote id, name (when truthy), phone and company, keeps its
      e-mail, and becomes `synced`, with one `pull` entry. */
  lemma PullLinkRule(t: Tables, r: RemoteRecord, watermark: Option<Time>, now: Time, k: nat)
    requires WellFormed(t)
    requires FindContactByExternalId(t.contacts, r.id).None? && Present(Prop(r, "email"))
    requires FindContactByEmail(t.contacts, ToLower(Prop(r, "email").value)) == Some(k)
    ensures PullContactSpec(t, r, watermark, now)
            == t.(contacts := t.contacts[k := t.contacts[k].(
                    externalId := Some(r.id),
                    name := if RemoteName(r) != "" then RemoteName(r) else t.contacts[k].name,
                    phone := Trim(OrEmpty(Prop(r, "phone"))), company := Trim(OrEmpty(Prop(r, "company"))),
                    syncStatus := Synced)],
                  logs := t.logs + [SyncLog(ContactType, t.contacts[k].id, Pull, LogSuccess, "Pulled from HubSpot", now)])
  {
    RemoteNameTrimmed(r);
    StoredFieldsNormal(t.contacts[k]);
  }

  /** A record with an e-mail that matches no contact creates a `synced`
      contact under the next id, named after the remote name or `Unknown`,
      with the normalised e-mail and the remote id; no log entry is written.
      A blank e-mail fails validation and nothing changes. */
  lemma PullCreateRule(t: Tables, r: RemoteRecord, watermark: Option<Time>, now: Time)
    requires FindContactByExternalId(t.contacts, r.id).None? && Present(Prop(r, "email"))
    requires FindContactByEmail(t.contacts, ToLower(Prop(r, "email").value)).None?
    ensures BlankRemoteEmail(r) ==> PullContactSpec(t, r, watermark, now) == t
    ensures !BlankRemoteEmail(r) ==>
              PullContactSpec(t, r, watermark, now)
              == t.(contacts := t.contacts + [Contact(t.nextId, if RemoteName(r) != "" then RemoteName(r) else "Unknown",
                                                      ToLower(Trim(Prop(r, "email").value)),
                                                      Trim(OrEmpty(Prop(r, "phone"))), Trim(OrEmpty(Prop(r, "company"))),
                                                      Some(r.id), now, Synced, 0)],
                    nextId := t.nextId + 1)
  {
    assert PullContactSpec(t, r, watermark, now) == CreateContactSpec(t, r, now);
    var c := RemoteContact(r, now).(id := t.nextId);
    assert c.name != "";
    assert Trim(c.name) == c.name by {
      if RemoteName(r) != "" {
        RemoteNameTrimmed(r);
      } else {
        UnknownTrimmed();
      }
    }
  }

  /** The default name of a created contact needs no trimming. */
  lemma UnknownTrimmed()
    ensures Trim("Unknown") == "Unknown"
  {
    TrimmedIff("Unknown");
  }

  /** A record with neither a linked contact nor an e-mail changes nothing. */
  lemma PullNoEmailRule(t: Tables, r: RemoteRecord, watermark: Option<Time>, now: Time)
    requires FindContactByExternalId(t.contacts, r.id).None? && !Present(Prop(r, "email"))
    ensures PullContactSpec(t, r, watermark, now) == t
  {
  }

  /** Conflict creation does not look for an open conflict: pulling the same
      record twice while the local contact stays pending and newer than the
      watermark records two unresolved conflicts about the same contact. */
  lemma RepeatedPullDuplicatesConflict(t: Tables, r: RemoteRecord, watermark: Option<Time>, now: Time, later: Time, k: nat)
    requires FindContactByExternalId(t.contacts, r.id) == Some(k)
    requires ContactConflicts(t.contacts[k], watermark)
    ensures var t2 := PullContactSpec(PullContactSpec(t, r, watermark, now), r, watermark, later);
            && |t2.conflicts| == |t.conflicts| + 2
            && t2.conflicts[|t.conflicts|].entityId == t.contacts[k].id
            && t2.conflicts[|t.conflicts| + 1].entityId == t.contacts[k].id
            && !t2.conflicts[|t.conflicts|].resolved && !t2.conflicts[|t.conflicts| + 1].resolved
            && t2.contacts == t.contacts
  {
    PullConflictRule(t, r, watermark, now, k);
    PullConflictRule(PullContactSpec(t, r, watermark, now), r, watermark, later, k);
  }

  /** Replacing a contact by one with the same external id keeps the lookup
      by external id where it was. */
  lemma FindByExternalIdAfterStore(cs: seq<Contact>, ext: string, k: nat, d: Contact)
    requires FindContactByExternalId(cs, ext) == Some(k) && d.externalId == Some(ext)
    ensures FindContactByExternalId(cs[k := d], ext) == Some(k)
  {
    var p := (c: Contact) => c.externalId == Some(ext);
    assert FindContactByExternalId(cs, ext) == FirstIndex(cs, p);
    var r := FirstIndex(cs[k := d], p);
    assert FindContactByExternalId(cs[k := d], ext) == r;
    assert p(cs[k := d][k]);
  }

  /** Local edits do not refresh `lastModified`, so a contact created before
      the watermark and edited afterwards is overwritten by the next pull of
      its HubSpot record without a conflict: the edit stays `pending` until
      the pull, which then replaces its phone and company by the remote ones. */
  lemma LocalEditOverwritten(t: Tables, id: Id, input: ContactsController.ContactInput,
                             r: RemoteRecord, watermark: Option<Time>, now: Time, k: nat)
    requires WellFormed(t)
    requires FindContact(t.contacts, id) == Some(k)
    requires FindContactByExternalId(t.contacts, r.id) == Some(k)
    requires t.contacts[k].lastModified <= watermark.GetOr(0)
    requires ContactsController.UpdateSpec(t, id, input).0.Success?
    requires !BlankRemoteEmail(r)
    ensures var t1 := ContactsController.UpdateSpec(t, id, input).1;
            var t2 := PullContactSpec(t1, r, watermark, now);
            && k < |t1.contacts| && t1.contacts[k].syncStatus == Pending
            && t2.conflicts == t.conflicts
            && k < |t2.contacts| && t2.contacts[k].syncStatus == Synced
            && t2.contacts[k].phone == Trim(OrEmpty(Prop(r, "phone")))
            && t2.contacts[k].company == Trim(OrEmpty(Prop(r, "company")))
  {
    ContactsController.UpdateOutcome(t, id, input);
    ContactsController.UpdateWellFormed(t, id, input);
    var t1 := ContactsController.UpdateSpec(t, id, input).1;
    var e := ContactsController.Edited(t.contacts[k], input);
    assert t1.contacts == t.contacts[k := e];
    FindByExternalIdAfterStore(t.contacts, r.id, k, e);
    PullUpdateRule(t1, r, watermark, now, k);
  }

  // ---------------------------------------------------------------------
  // Properties of one company record

  /** A company conflict leaves every record and the log as they are and
      adds one unresolved conflict holding both snapshots. */
  lemma PullCompanyConflictRule(t: Tables, r: RemoteRecord, watermark: Option<Time>, now: Time, k: nat)
    requires FindCompanyByExternalId(t.companies, r.id) == Some(k)
    requires CompanyConflicts(t.companies[k], watermark)
    ensures PullCompanySpec(t, r, watermark, now)
            == t.(conflicts := t.conflicts + [Conflict(t.nextId, CompanyType, t.companies[k].id,
                                                       LocalCompanySnapshot(t.companies[k]), RemoteCompanySnapshot(r),
                                                       now, false, None, None)],
                  nextId := t.nextId + 1)
  {
  }

  /** A company matched without a conflict takes the remote name when it is
      truthy and not blank, and the remote domain and industry (or `''`),
      and becomes `synced`; a blank remote name fails validation and
      nothing changes. No log entry is written either way. */
  lemma PullCompanyUpdateRule(t: Tables, r: RemoteRecord, watermark: Option<Time>, now: Time, k: nat)
    requires WellFormed(t)
    requires FindCompanyByExternalId(t.companies, r.id) == Some(k)
    requires !CompanyConflicts(t.companies[k], watermark)
    ensures Present(Prop(r, "name")) && Trim(Prop(r, "name").value) == "" ==> PullCompanySpec(t, r, watermark, now) == t
    ensures !(Present(Prop(r, "name")) && Trim(Prop(r, "name").value) == "") ==>
              PullCompanySpec(t, r, watermark, now)
              == t.(companies := t.companies[k := t.companies[k].(
                      name := if Present(Prop(r, "name")) then Trim(Prop(r, "name").value) else t.companies[k].name,
                      domain := Trim(OrEmpty(Prop(r, "domain"))), industry := Trim(OrEmpty(Prop(r, "industry"))),
                      syncStatus := Synced)])
  {
    TrimmedIff(t.companies[k].name);
  }

  /** An unmatched company record creates a `synced` company only when its
      name is truthy and not blank; otherwise nothing changes. */
  lemma PullCompanyCreateRule(t: Tables, r: RemoteRecord, watermark: Option<Time>, now: Time)
    requires FindCompanyByExternalId(t.companies, r.id).None?
    ensures !(Present(Prop(r, "name")) && Trim(Prop(r, "name").value) != "") ==> PullCompanySpec(t, r, watermark, now) == t
    ensures Present(Prop(r, "name")) && Trim(Prop(r, "name").value) != "" ==>
              PullCompanySpec(t, r, watermark, now)
              == t.(companies := t.companies + [Company(t.nextId, Trim(Prop(r, "name").value),
                                                        Trim(OrEmpty(Prop(r, "domain"))), Trim(OrEmpty(Prop(r, "industry"))),
                                                        Some(r.id), now, Synced)],
                    nextId := t.nextId + 1)
  {
  }

  // ---------------------------------------------------------------------
  // Properties of the loops

  /** `t'` differs from `t` only by contact records, conflicts and log
      entries added or contacts changed in place, never removed. */
  predicate ContactsGrow(t: Tables, t': Tables) {
    && t'.companies == t.companies && |t'.contacts| >= |t.contacts|
    && t.conflicts <= t'.conflicts && t.logs <= t'.logs && t'.nextId >= t.nextId
  }

  /** `t'` differs from `t` only by companies and conflicts added or
      companies changed in place, never removed. */
  predicate CompaniesGrow(t: Tables, t': Tables) {
    && t'.contacts == t.contacts && t'.logs == t.logs && |t'.companies| >= |t.companies|
    && t.conflicts <= t'.conflicts && t'.nextId >= t.nextId
  }

  /** One contact record never touches companies and never removes a
      contact, a conflict or a log entry. */
  lemma PullContactStep(t: Tables, r: RemoteRecord, watermark: Option<Time>, now: Time)
    ensures ContactsGrow(t, PullContactSpec(t, r, watermark, now))
  {
    match FindContactByExternalId(t.contacts, r.id)
    case Some(k) =>
      if !ContactConflicts(t.contacts[k], watermark) {
        assert ContactsGrow(t, SaveAndLog(t, k, UpdatedContact(t.contacts[k], r), now));
      }
    case None =>
      if Present(Prop(r, "email")) {
        match FindContactByEmail(t.contacts, ToLower(Prop(r, "email").value))
        case Some(k) =>
          assert ContactsGrow(t, SaveAndLog(t, k, LinkedContact(t.contacts[k], r), now));
        case None =>
          assert ContactsGrow(t, CreateContactSpec(t, r, now));
      }
  }

  /** One company record never touches contacts or the log and never
      removes a company or a conflict. */
  lemma PullCompanyStep(t: Tables, r: RemoteRecord, watermark: Option<Time>, now: Time)
    ensures CompaniesGrow(t, PullCompanySpec(t, r, watermark, now))
  {
  }

  /** The contact loop never touches companies, and removes no contact,
      conflict or log entry. */
  lemma {:induction false} PulledContactsFrame(t: Tables, rs: seq<RemoteRecord>, n: nat, watermark: Option<Time>, now: Time)
    requires n <= |rs|
    ensures ContactsGrow(t, PulledContacts(t, rs, n, watermark, now))
  {
    if n > 0 {
      var t0 := PulledContacts(t, rs, n - 1, watermark, now);
      PulledContactsFrame(t, rs, n - 1, watermark, now);
      PullContactStep(t0, rs[n - 1], watermark, now);
      assert PulledContacts(t, rs, n, watermark, now) == PullContactSpec(t0, rs[n - 1], watermark, now);
    }
  }

  /** The company loop never touches contacts or the log, and removes no
      company or conflict. */
  lemma {:induction false} PulledCompaniesFrame(t: Tables, rs: seq<RemoteRecord>, n: nat, watermark: Option<Time>, now: Time)
    requires n <= |rs|
    ensures CompaniesGrow(t, PulledCompanies(t, rs, n, watermark, now))
  {
    if n > 0 {
      var t0 := PulledCompanies(t, rs, n - 1, watermark, now);
      PulledCompaniesFrame(t, rs, n - 1, watermark, now);
      PullCompanyStep(t0, rs[n - 1], watermark, now);
      assert PulledCompanies(t, rs, n, watermark, now) == PullCompanySpec(t0, rs[n - 1], watermark, now);
    }
  }
}
