/** The records of the poll-pass engine (backend/src/models): Contact, Company,
    Conflict and SyncLog, their enumerations and defaults, and what a Mongoose
    `save` does to them (schema setters `trim`/`lowercase`, then the
    `required` validators). */
module Models {
  import opened Common
  import opened Text

  /** `syncStatus` enum of Contact and Company. */
  datatype SyncStatus = Pending | Synced | Failed

  /** `entityType` enum of Conflict and SyncLog. */
  datatype EntityType = ContactType | CompanyType

  datatype Contact = Contact(
    id: Id,
    name: string,
    email: string,
    phone: string,
    company: string,
    externalId: Option<string>,
    lastModified: Time,
    syncStatus: SyncStatus,
    retryCount: nat)

  /** A Company has no `retryCount`: a failed company push is not counted. */
  datatype Company = Company(
    id: Id,
    name: string,
    domain: string,
    industry: string,
    externalId: Option<string>,
    lastModified: Time,
    syncStatus: SyncStatus)

  /** A `localData`/`remoteData` snapshot: a free-form object whose keys may be
      missing (`undefined`). */
  datatype Snapshot = Snapshot(
    name: Option<string>,
    email: Option<string>,
    phone: Option<string>,
    company: Option<string>,
    domain: Option<string>,
    industry: Option<string>,
    lastModified: Option<Time>)

  /** `resolvedBy` enum; `merge` is allowed by the schema but never written. */
  datatype Resolver = ByLocal | ByRemote | ByMerge

  datatype Conflict = Conflict(
    id: Id,
    entityType: EntityType,
    entityId: Id,
    localData: Snapshot,
    remoteData: Snapshot,
    detectedAt: Time,
    resolved: bool,
    resolvedBy: Option<Resolver>,
    resolvedAt: Option<Time>)

  /** SyncLog `operation` enum. */
  datatype Operation = Push | Pull | ConflictDetected | ConflictResolved

  /** SyncLog `status` enum. */
  datatype LogStatus = LogSuccess | LogError

  datatype SyncLog = SyncLog(
    entityType: EntityType,
    entityId: Id,
    operation: Operation,
    status: LogStatus,
    message: string,
    timestamp: Time)

  // ---------------------------------------------------------------------
  // Defaults

  /** A Contact with the schema defaults for every field the caller leaves
      out: empty phone and company, no external id, `lastModified` = now,
      `pending`, no retries. */
  function NewContact(id: Id, name: string, email: string, now: Time): (c: Contact)
    ensures c.id == id && c.name == name && c.email == email
    ensures c.phone == "" && c.company == "" && c.externalId == None
    ensures c.lastModified == now && c.syncStatus == Pending && c.retryCount == 0
  {
    Contact(id, name, email, "", "", None, now, Pending, 0)
  }

  /** A Company with the schema defaults: empty domain and industry, no
      external id, `lastModified` = now, `pending`. */
  function NewCompany(id: Id, name: string, now: Time): (c: Company)
    ensures c.id == id && c.name == name && c.domain == "" && c.industry == ""
    ensures c.externalId == None && c.lastModified == now && c.syncStatus == Pending
  {
    Company(id, name, "", "", None, now, Pending)
  }

  /** A freshly detected conflict: unresolved, no resolver, no resolution time. */
  function NewConflict(id: Id, entityType: EntityType, entityId: Id, localData: Snapshot,
                       remoteData: Snapshot, now: Time): (c: Conflict)
    ensures c.id == id && c.entityType == entityType && c.entityId == entityId
    ensures c.localData == localData && c.remoteData == remoteData && c.detectedAt == now
    ensures !c.resolved && c.resolvedBy == None && c.resolvedAt == None
  {
    Conflict(id, entityType, entityId, localData, remoteData, now, false, None, None)
  }

  /** `SyncLog.create(...)`: the entry, or None when validation rejects it
      because `entityId` (required) is missing. The message is stored as
      given and the timestamp defaults to now. */
  function NewSyncLog(entityType: EntityType, entityId: Option<Id>, operation: Operation,
                      status: LogStatus, message: string, now: Time): (r: Option<SyncLog>)
    ensures r.Some? <==> entityId.Some?
    ensures r.Some? ==> r.value.entityId == entityId.value && r.value.entityType == entityType
                        && r.value.operation == operation && r.value.status == status
                        && r.value.message == message && r.value.timestamp == now
  {
    match entityId
    case None => None
    case Some(eid) => Some(SyncLog(entityType, eid, operation, status, message, now))
  }

  // ---------------------------------------------------------------------
  // Schema setters and validation

  /** The Contact schema setters: name, phone and company trimmed; email
      trimmed and lower-cased. */
  function CastContact(c: Contact): Contact {
    c.(name := Trim(c.name), email := ToLower(Trim(c.email)),
       phone := Trim(c.phone), company := Trim(c.company))
  }

  /** The Company schema setters: name, domain and industry trimmed. */
  function CastCompany(c: Company): Company {
    c.(name := Trim(c.name), domain := Trim(c.domain), industry := Trim(c.industry))
  }

  /** What a stored contact looks like: every string field in the setters'
      normal form (trimmed, the e-mail lower-case), with the required name and
      e-mail present. */
  predicate ContactInSchema(c: Contact) {
    && IsTrimmed(c.name) && IsTrimmed(c.email) && IsLower(c.email)
    && IsTrimmed(c.phone) && IsTrimmed(c.company)
    && c.name != "" && c.email != ""
  }

  /** What a stored company looks like: trimmed strings and a name. */
  predicate CompanyInSchema(c: Company) {
    IsTrimmed(c.name) && IsTrimmed(c.domain) && IsTrimmed(c.industry) && c.name != ""
  }

  /** The setters leave a contact in schema form unchanged, and put any
      contact in setter normal form. */
  lemma CastContactNormal(c: Contact)
    ensures ContactInSchema(c) ==> CastContact(c) == c
    ensures var k := CastContact(c);
            IsTrimmed(k.name) && IsTrimmed(k.email) && IsLower(k.email)
            && IsTrimmed(k.phone) && IsTrimmed(k.company)
  {
    TrimmedIff(c.name);
    TrimmedIff(c.email);
    LowerIff(c.email);
    TrimmedIff(c.phone);
    TrimmedIff(c.company);
    TrimIdempotent(c.name);
    TrimIdempotent(c.phone);
    TrimIdempotent(c.company);
    TrimmedIff(Trim(c.name));
    TrimmedIff(Trim(c.phone));
    TrimmedIff(Trim(c.company));
    LowerTrimShape(c.email);
  }

  lemma CastCompanyNormal(c: Company)
    ensures CompanyInSchema(c) ==> CastCompany(c) == c
    ensures var k := CastCompany(c);
            IsTrimmed(k.name) && IsTrimmed(k.domain) && IsTrimmed(k.industry)
  {
    TrimmedIff(c.name);
    TrimmedIff(c.domain);
    TrimmedIff(c.industry);
    TrimIdempotent(c.name);
    TrimIdempotent(c.domain);
    TrimIdempotent(c.industry);
    TrimmedIff(Trim(c.name));
    TrimmedIff(Trim(c.domain));
    TrimmedIff(Trim(c.industry));
  }

  /** `contact.save()`: the stored document, or None when validation fails.
      Saving succeeds exactly when name and email are not blank; what is
      stored is in schema form and differs from the input only by the
      setters, so saving a stored contact again changes nothing. */
  function SaveContact(c: Contact): (r: Option<Contact>)
    ensures r.Some? <==> Trim(c.name) != "" && Trim(c.email) != ""
    ensures r.Some? ==> ContactInSchema(r.value) && r.value == CastContact(c)
    ensures ContactInSchema(c) ==> r == Some(c)
  {
    var k := CastContact(c);
    CastContactNormal(c);
    if k.name != "" && k.email != "" then Some(k) else None
  }

  /** A contact already in setter normal form is stored unchanged when its
      name and e-mail are non-empty, and rejected otherwise. */
  lemma SaveNormalContact(c: Contact)
    requires IsTrimmed(c.name) && IsTrimmed(c.email) && IsLower(c.email)
    requires IsTrimmed(c.phone) && IsTrimmed(c.company)
    ensures SaveContact(c) == if c.name != "" && c.email != "" then Some(c) else None
  {
    TrimmedIff(c.name);
    TrimmedIff(c.email);
  }

  /** A company already in setter normal form is stored unchanged when its
      name is non-empty, and rejected otherwise. */
  lemma SaveNormalCompany(c: Company)
    requires IsTrimmed(c.name) && IsTrimmed(c.domain) && IsTrimmed(c.industry)
    ensures SaveCompany(c) == if c.name != "" then Some(c) else None
  {
    TrimmedIff(c.name);
  }

  /** A field an update handler overwrites with the trimmed value when one is
      supplied stays trimmed. */
  lemma TrimmedField(kept: string, o: Option<string>, supplied: bool)
    requires IsTrimmed(kept) && (supplied ==> o.Some?)
    ensures IsTrimmed(if supplied then Trim(o.value) else kept)
  {
    TrimmedEnds(o.GetOr(""));
  }

  /** The same for a field overwritten with the trimmed, lower-cased value. */
  lemma LowerField(kept: string, o: Option<string>, supplied: bool)
    requires IsTrimmed(kept) && (supplied ==> o.Some?)
    ensures var f := if supplied then ToLower(Trim(o.value)) else kept;
            IsTrimmed(f) && (IsLower(kept) ==> IsLower(f))
  {
    LowerTrimShape(o.GetOr(""));
  }

  /** `company.save()`: the stored document, or None when the name is blank. */
  function SaveCompany(c: Company): (r: Option<Company>)
    ensures r.Some? <==> Trim(c.name) != ""
    ensures r.Some? ==> CompanyInSchema(r.value) && r.value == CastCompany(c)
    ensures CompanyInSchema(c) ==> r == Some(c)
  {
    var k := CastCompany(c);
    CastCompanyNormal(c);
    if k.name != "" then Some(k) else None
  }
}
