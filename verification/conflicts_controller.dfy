/** Conflict listing and manual resolution in the poll-pass engine
    (backend/src/controllers/conflictsController.js). A conflict is resolved
    once: keeping the remote snapshot copies it into the entity and marks the
    entity `synced`; keeping the local data marks the entity `pending` so the
    next push sends it. */
module ConflictsController {
  import opened Common
  import opened Text
  import opened Models
  import opened Store

  // ---------------------------------------------------------------------
  // GET /api/conflicts

  /** The `resolved` query parameter: `'true'` and `'false'` filter, anything
      else (or nothing) lists every conflict. */
  function ResolvedFilter(resolved: Option<string>): (f: Option<bool>)
    ensures f == Some(true) <==> resolved == Some("true")
    ensures f == Some(false) <==> resolved == Some("false")
  {
    if resolved == Some("true") then Some(true)
    else if resolved == Some("false") then Some(false)
    else None
  }

  /** The conflicts passing the filter, in store order. */
  function Matching(cs: seq<Conflict>, f: Option<bool>): (r: seq<Conflict>)
    ensures multiset(r) <= multiset(cs)
    ensures forall x :: x in r ==> f.None? || x.resolved == f.value
    ensures forall x :: x in cs && (f.None? || x.resolved == f.value) ==> x in r
    ensures f.None? ==> r == cs
  {
    if |cs| == 0 then []
    else
      var rest := Matching(cs[..|cs| - 1], f);
      var last := cs[|cs| - 1];
      assert cs == cs[..|cs| - 1] + [last];
      if f.None? || last.resolved == f.value then rest + [last] else rest
  }

  /** Newest first by `detectedAt`. */
  predicate NewestFirst(s: seq<Conflict>) {
    forall i, j :: 0 <= i < j < |s| ==> s[i].detectedAt >= s[j].detectedAt
  }

  /** Inserts `c` into a newest-first sequence, before the first conflict
      that is not newer. */
  function InsertByDetected(c: Conflict, s: seq<Conflict>): seq<Conflict> {
    if |s| == 0 || s[0].detectedAt <= c.detectedAt then [c] + s
    else [s[0]] + InsertByDetected(c, s[1..])
  }

  /** No conflict in `s` was detected after `bound`. */
  predicate NotAfter(s: seq<Conflict>, bound: Time) {
    forall i :: 0 <= i < |s| ==> s[i].detectedAt <= bound
  }

  /** Insertion adds nothing detected after a bound that `c` and `s` keep. */
  lemma {:induction false} InsertNotAfter(c: Conflict, s: seq<Conflict>, bound: Time)
    requires NotAfter(s, bound) && c.detectedAt <= bound
    ensures NotAfter(InsertByDetected(c, s), bound)
  {
    if |s| == 0 || s[0].detectedAt <= c.detectedAt {
    } else {
      InsertNotAfter(c, s[1..], bound);
    }
  }

  /** Insertion keeps a sequence newest first and adds exactly `c`. */
  lemma {:induction false} InsertByDetectedSpec(c: Conflict, s: seq<Conflict>)
    requires NewestFirst(s)
    ensures NewestFirst(InsertByDetected(c, s))
    ensures multiset(InsertByDetected(c, s)) == multiset(s) + multiset{c}
  {
    if |s| == 0 || s[0].detectedAt <= c.detectedAt {
    } else {
      var rest := InsertByDetected(c, s[1..]);
      InsertByDetectedSpec(c, s[1..]);
      InsertNotAfter(c, s[1..], s[0].detectedAt);
      assert s == [s[0]] + s[1..];
    }
  }

  /** `.sort({ detectedAt: -1 })`; the order among equal timestamps is the
      database's choice and is not fixed by the model's properties. */
  function SortByDetected(s: seq<Conflict>): (r: seq<Conflict>)
    ensures NewestFirst(r)
    ensures multiset(r) == multiset(s)
  {
    if |s| == 0 then []
    else
      assert s == [s[0]] + s[1..];
      var rest := SortByDetected(s[1..]);
      InsertByDetectedSpec(s[0], rest);
      InsertByDetected(s[0], rest)
  }

  /** The list handler: exactly the conflicts passing the filter, newest
      first. */
  function ListConflicts(cs: seq<Conflict>, resolved: Option<string>): (r: seq<Conflict>)
    ensures NewestFirst(r)
    ensures forall x :: x in r <==> x in cs && (resolved == Some("true") ==> x.resolved)
                                             && (resolved == Some("false") ==> !x.resolved)
    ensures resolved != Some("true") && resolved != Some("false") ==> multiset(r) == multiset(cs)
  {
    var m := Matching(cs, ResolvedFilter(resolved));
    var r := SortByDetected(m);
    assert forall x :: x in r <==> x in multiset(r);
    assert forall x :: x in m <==> x in multiset(m);
    r
  }

  // ---------------------------------------------------------------------
  // POST /api/conflicts/resolve

  /** The entity a successful resolution returns together with the conflict. */
  datatype Resolution =
    | ContactResolution(conflict: Conflict, contact: Contact)
    | CompanyResolution(conflict: Conflict, company: Company)

  /** `resolution` is one of the two accepted values. */
  predicate Accepted(resolution: Option<string>) {
    resolution == Some("local") || resolution == Some("remote")
  }

  /** The contact after the remote snapshot is copied in (before the setters
      run on save): name and e-mail when truthy, phone and company when
      defined, then `synced`. */
  function TakeRemoteContact(c: Contact, remote: Snapshot): (e: Contact)
    ensures e.id == c.id && e.externalId == c.externalId && e.lastModified == c.lastModified
    ensures e.retryCount == c.retryCount && e.syncStatus == Synced
    ensures e.name == (if Present(remote.name) then remote.name.value else c.name)
    ensures e.email == (if Present(remote.email) then remote.email.value else c.email)
    ensures e.phone == (if remote.phone.Some? then remote.phone.value else c.phone)
    ensures e.company == (if remote.company.Some? then remote.company.value else c.company)
  {
    c.(name := if Present(remote.name) then remote.name.value else c.name,
       email := if Present(remote.email) then remote.email.value else c.email,
       phone := if remote.phone.Some? then remote.phone.value else c.phone,
       company := if remote.company.Some? then remote.company.value else c.company,
       syncStatus := Synced)
  }

  /** The company after the remote snapshot is copied in: name when truthy,
      domain and industry when defined, then `synced`. */
  function TakeRemoteCompany(c: Company, remote: Snapshot): (e: Company)
    ensures e.id == c.id && e.externalId == c.externalId && e.lastModified == c.lastModified
    ensures e.syncStatus == Synced
    ensures e.name == (if Present(remote.name) then remote.name.value else c.name)
    ensures e.domain == (if remote.domain.Some? then remote.domain.value else c.domain)
    ensures e.industry == (if remote.industry.Some? then remote.industry.value else c.industry)
  {
    c.(name := if Present(remote.name) then remote.name.value else c.name,
       domain := if remote.domain.Some? then remote.domain.value else c.domain,
       industry := if remote.industry.Some? then remote.industry.value else c.industry,
       syncStatus := Synced)
  }

  /** The entity as the handler sets it before saving. */
  function ResolvedContact(c: Contact, remote: Snapshot, keepRemote: bool): Contact {
    if keepRemote then TakeRemoteContact(c, remote) else c.(syncStatus := Pending)
  }

  function ResolvedCompany(c: Company, remote: Snapshot, keepRemote: bool): Company {
    if keepRemote then TakeRemoteCompany(c, remote) else c.(syncStatus := Pending)
  }

  /** The conflict after resolution. */
  function Closed(c: Conflict, keepRemote: bool, now: Time): (d: Conflict)
    ensures d.resolved && d.resolvedAt == Some(now)
    ensures d.resolvedBy == Some(if keepRemote then ByRemote else ByLocal)
    ensures d.id == c.id && d.entityType == c.entityType && d.entityId == c.entityId
    ensures d.localData == c.localData && d.remoteData == c.remoteData && d.detectedAt == c.detectedAt
  {
    c.(resolved := true, resolvedBy := Some(if keepRemote then ByRemote else ByLocal), resolvedAt := Some(now))
  }

  /** The `conflict_resolved` entry the handler appends. */
  function ResolutionLog(c: Conflict, resolution: string, now: Time): SyncLog {
    SyncLog(c.entityType, c.entityId, ConflictResolved, LogSuccess,
            "Conflict resolved by keeping " + resolution + " data", now)
  }

  /** The last three steps once the entity is saved: close the conflict at
      position `k` and append the log entry. */
  function Finish(t: Tables, k: nat, resolution: string, now: Time): Tables
    requires k < |t.conflicts|
  {
    var c := t.conflicts[k];
    t.(conflicts := t.conflicts[k := Closed(c, resolution == "remote", now)],
       logs := t.logs + [ResolutionLog(c, resolution, now)])
  }

  /** The resolve handler as a function of the database. */
  function ResolveSpec(t: Tables, conflictId: Option<Id>, resolution: Option<string>, now: Time)
    : (Reply<Resolution>, Tables)
  {
    if conflictId.None? then (Failure(400, "conflictId is required"), t)
    else if !Accepted(resolution) then (Failure(400, "resolution must be \"local\" or \"remote\""), t)
    else match FindConflict(t.conflicts, conflictId.value)
    case None => (Failure(404, "Conflict not found"), t)
    case Some(k) =>
      if t.conflicts[k].resolved then (Failure(400, "Conflict already resolved"), t)
      else if t.conflicts[k].entityType == ContactType then ResolveWithContact(t, k, resolution.value, now)
      else ResolveWithCompany(t, k, resolution.value, now)
  }

  /** The rest of the handler for the open contact conflict at position `k`:
      find the contact, save it, close the conflict, log. */
  function ResolveWithContact(t: Tables, k: nat, resolution: string, now: Time)
    : (Reply<Resolution>, Tables)
    requires k < |t.conflicts|
  {
    var c := t.conflicts[k];
    match FindContact(t.contacts, c.entityId)
    case None => (Failure(404, "contact not found"), t)
    case Some(j) =>
      match SaveContact(ResolvedContact(t.contacts[j], c.remoteData, resolution == "remote"))
      case None => (Failure(500, "Failed to resolve conflict"), t)
      case Some(e) =>
        var t' := Finish(t.(contacts := t.contacts[j := e]), k, resolution, now);
        (Success(200, ContactResolution(t'.conflicts[k], e)), t')
  }

  /** The same for the open company conflict at position `k`. */
  function ResolveWithCompany(t: Tables, k: nat, resolution: string, now: Time)
    : (Reply<Resolution>, Tables)
    requires k < |t.conflicts|
  {
    var c := t.conflicts[k];
    match FindCompany(t.companies, c.entityId)
    case None => (Failure(404, "company not found"), t)
    case Some(j) =>
      match SaveCompany(ResolvedCompany(t.companies[j], c.remoteData, resolution == "remote"))
      case None => (Failure(500, "Failed to resolve conflict"), t)
      case Some(e) =>
        var t' := Finish(t.(companies := t.companies[j := e]), k, resolution, now);
        (Success(200, CompanyResolution(t'.conflicts[k], e)), t')
  }

  method ResolveConflict(db: Database, conflictId: Option<Id>, resolution: Option<string>, now: Time)
    returns (r: Reply<Resolution>)
    requires db.Valid()
    modifies db
    ensures db.Valid()
    ensures (r, db.State()) == ResolveSpec(old(db.State()), conflictId, resolution, now)
  {
    if conflictId.None? {
      return Failure(400, "conflictId is required");
    }
    if !Accepted(resolution) {
      return Failure(400, "resolution must be \"local\" or \"remote\"");
    }
    var found := FindConflict(db.conflicts, conflictId.value);
    if found.None? {
      return Failure(404, "Conflict not found");
    }
    var k := found.value;
    if db.conflicts[k].resolved {
      return Failure(400, "Conflict already resolved");
    }
    if db.conflicts[k].entityType == ContactType {
      r := ResolveContactEntity(db, k, resolution.value, now);
    } else {
      r := ResolveCompanyEntity(db, k, resolution.value, now);
    }
  }

  /** The contact branch of the handler on the database. */
  method ResolveContactEntity(db: Database, k: nat, resolution: string, now: Time)
    returns (r: Reply<Resolution>)
    requires db.Valid() && k < |db.conflicts|
    modifies db
    ensures db.Valid()
    ensures (r, db.State()) == ResolveWithContact(old(db.State()), k, resolution, now)
  {
    var c := db.conflicts[k];
    var j := FindContact(db.contacts, c.entityId);
    if j.None? {
      return Failure(404, "contact not found");
    }
    var saved := db.StoreContact(j.value, ResolvedContact(db.contacts[j.value], c.remoteData, resolution == "remote"));
    if saved.None? {
      return Failure(500, "Failed to resolve conflict");
    }
    var closed := Closed(c, resolution == "remote", now);
    db.StoreConflict(k, closed);
    db.AppendLog(Some(ResolutionLog(c, resolution, now)));
    r := Success(200, ContactResolution(closed, saved.value));
  }

  /** The company branch of the handler on the database. */
  method ResolveCompanyEntity(db: Database, k: nat, resolution: string, now: Time)
    returns (r: Reply<Resolution>)
    requires db.Valid() && k < |db.conflicts|
    modifies db
    ensures db.Valid()
    ensures (r, db.State()) == ResolveWithCompany(old(db.State()), k, resolution, now)
  {
    var c := db.conflicts[k];
    var j := FindCompany(db.companies, c.entityId);
    if j.None? {
      return Failure(404, "company not found");
    }
    var saved := db.StoreCompany(j.value, ResolvedCompany(db.companies[j.value], c.remoteData, resolution == "remote"));
    if saved.None? {
      return Failure(500, "Failed to resolve conflict");
    }
    var closed := Closed(c, resolution == "remote", now);
    db.StoreConflict(k, closed);
    db.AppendLog(Some(ResolutionLog(c, resolution, now)));
    r := Success(200, CompanyResolution(closed, saved.value));
  }

  // ---------------------------------------------------------------------
  // Properties of the resolve handler

  /** A remote snapshot lets the contact be saved unless it supplies a name
      or an e-mail that is only white space. */
  predicate RemoteKeepsContact(remote: Snapshot) {
    && !(Present(remote.name) && Trim(remote.name.value) == "")
    && !(Present(remote.email) && Trim(remote.email.value) == "")
  }

  /** A remote snapshot lets the company be saved unless it supplies a name
      that is only white space. */
  predicate RemoteKeepsCompany(remote: Snapshot) {
    !(Present(remote.name) && Trim(remote.name.value) == "")
  }

  /** The stored contact after keeping the remote snapshot, field by field:
      each supplied value in setter normal form, every other field kept. */
  function StoredRemoteContact(c: Contact, remote: Snapshot): Contact {
    c.(name := if Present(remote.name) then Trim(remote.name.value) else c.name,
       email := if Present(remote.email) then ToLower(Trim(remote.email.value)) else c.email,
       phone := if remote.phone.Some? then Trim(remote.phone.value) else c.phone,
       company := if remote.company.Some? then Trim(remote.company.value) else c.company,
       syncStatus := Synced)
  }

  /** The stored company after keeping the remote snapshot; the domain is only
      trimmed (the remote branch does not lower-case it). */
  function StoredRemoteCompany(c: Company, remote: Snapshot): Company {
    c.(name := if Present(remote.name) then Trim(remote.name.value) else c.name,
       domain := if remote.domain.Some? then Trim(remote.domain.value) else c.domain,
       industry := if remote.industry.Some? then Trim(remote.industry.value) else c.industry,
       syncStatus := Synced)
  }

  /** Saving a stored contact with the remote snapshot copied in. */
  lemma RemoteContactSaves(c: Contact, remote: Snapshot)
    requires ContactInSchema(c)
    ensures SaveContact(TakeRemoteContact(c, remote))
            == if RemoteKeepsContact(remote) then Some(StoredRemoteContact(c, remote)) else None
  {
    TrimmedIff(c.name);
    TrimmedIff(c.email);
    LowerIff(c.email);
    TrimmedIff(c.phone);
    TrimmedIff(c.company);
  }

  /** Saving a stored company with the remote snapshot copied in. */
  lemma RemoteCompanySaves(c: Company, remote: Snapshot)
    requires CompanyInSchema(c)
    ensures SaveCompany(TakeRemoteCompany(c, remote))
            == if RemoteKeepsCompany(remote) then Some(StoredRemoteCompany(c, remote)) else None
  {
    TrimmedIff(c.name);
    TrimmedIff(c.domain);
    TrimmedIff(c.industry);
  }

  /** What the contact branch changes: on success the contact, the conflict
      at `k` (closed) and one new log entry, and nothing else; on failure
      nothing. */
  lemma ContactBranchEffects(t: Tables, k: nat, resolution: string, now: Time)
    requires k < |t.conflicts|
    ensures var (r, t') := ResolveWithContact(t, k, resolution, now);
            && (r.Failure? ==> t' == t)
            && (r.Success? ==>
                  && t'.conflicts == t.conflicts[k := Closed(t.conflicts[k], resolution == "remote", now)]
                  && t'.logs == t.logs + [ResolutionLog(t.conflicts[k], resolution, now)]
                  && t'.companies == t.companies && t'.nextId == t.nextId
                  && r.code == 200 && r.body.conflict == t'.conflicts[k])
  {
  }

  /** What the company branch changes. */
  lemma CompanyBranchEffects(t: Tables, k: nat, resolution: string, now: Time)
    requires k < |t.conflicts|
    ensures var (r, t') := ResolveWithCompany(t, k, resolution, now);
            && (r.Failure? ==> t' == t)
            && (r.Success? ==>
                  && t'.conflicts == t.conflicts[k := Closed(t.conflicts[k], resolution == "remote", now)]
                  && t'.logs == t.logs + [ResolutionLog(t.conflicts[k], resolution, now)]
                  && t'.contacts == t.contacts && t'.nextId == t.nextId
                  && r.code == 200 && r.body.conflict == t'.conflicts[k])
  {
  }

  /** The request is checked before anything is read, then the conflict is
      looked up and must still be open; every failure leaves the database as
      it was. */
  lemma ResolveRejects(t: Tables, conflictId: Option<Id>, resolution: Option<string>, now: Time)
    ensures var (r, t') := ResolveSpec(t, conflictId, resolution, now);
            && (conflictId.None? ==> r == Failure(400, "conflictId is required"))
            && (conflictId.Some? && !Accepted(resolution)
                ==> r == Failure(400, "resolution must be \"local\" or \"remote\""))
            && (conflictId.Some? && Accepted(resolution) && FindConflict(t.conflicts, conflictId.value).None?
                ==> r == Failure(404, "Conflict not found"))
            && (conflictId.Some? && Accepted(resolution) && FindConflict(t.conflicts, conflictId.value).Some?
                && t.conflicts[FindConflict(t.conflicts, conflictId.value).value].resolved
                ==> r == Failure(400, "Conflict already resolved"))
            && (r.Failure? ==> t' == t)
  {
    if conflictId.Some? && Accepted(resolution) && FindConflict(t.conflicts, conflictId.value).Some? {
      var k := FindConflict(t.conflicts, conflictId.value).value;
      if t.conflicts[k].resolved {
      } else if t.conflicts[k].entityType == ContactType {
        ContactBranchEffects(t, k, resolution.value, now);
      } else {
        CompanyBranchEffects(t, k, resolution.value, now);
      }
    }
  }

  /** A successful resolution closes exactly the open conflict it names,
      appends exactly one `conflict_resolved` entry, allocates no id and
      returns the closed conflict. */
  lemma ResolveClosesConflict(t: Tables, conflictId: Option<Id>, resolution: Option<string>, now: Time)
    ensures var (r, t') := ResolveSpec(t, conflictId, resolution, now);
            r.Success? ==>
              && conflictId.Some? && Accepted(resolution)
              && FindConflict(t.conflicts, conflictId.value).Some?
              && var k := FindConflict(t.conflicts, conflictId.value).value;
                 && !t.conflicts[k].resolved
                 && t'.conflicts == t.conflicts[k := Closed(t.conflicts[k], resolution == Some("remote"), now)]
                 && t'.logs == t.logs + [ResolutionLog(t.conflicts[k], resolution.value, now)]
                 && t'.nextId == t.nextId
                 && r.code == 200 && r.body.conflict == t'.conflicts[k]
  {
    if conflictId.Some? && Accepted(resolution) && FindConflict(t.conflicts, conflictId.value).Some? {
      var k := FindConflict(t.conflicts, conflictId.value).value;
      if t.conflicts[k].resolved {
      } else if t.conflicts[k].entityType == ContactType {
        ContactBranchEffects(t, k, resolution.value, now);
      } else {
        CompanyBranchEffects(t, k, resolution.value, now);
      }
    }
  }

  /** Resolving an open contact conflict: a missing contact is a 404 that
      changes nothing; keeping the local data always succeeds and only marks
      the contact `pending`; keeping the remote data succeeds exactly when
      the snapshot keeps the required fields, and stores the snapshot's
      values. */
  lemma ResolveContact(t: Tables, k: nat, resolution: string, now: Time)
    requires WellFormed(t) && k < |t.conflicts|
    requires resolution == "local" || resolution == "remote"
    ensures var c := t.conflicts[k];
            var (r, t') := ResolveWithContact(t, k, resolution, now);
            match FindContact(t.contacts, c.entityId)
            case None => r == Failure(404, "contact not found") && t' == t
            case Some(j) =>
              && (resolution == "local"
                  ==> r.Success? && t'.contacts == t.contacts[j := t.contacts[j].(syncStatus := Pending)])
              && (resolution == "remote"
                  ==> (r.Success? <==> RemoteKeepsContact(c.remoteData))
                      && (r.Success? ==> t'.contacts == t.contacts[j := StoredRemoteContact(t.contacts[j], c.remoteData)]))
              && (r.Success? ==> r.body.ContactResolution? && r.body.contact == t'.contacts[j])
  {
    var c := t.conflicts[k];
    var j := FindContact(t.contacts, c.entityId);
    if j.Some? {
      RemoteContactSaves(t.contacts[j.value], c.remoteData);
    }
  }

  /** Resolving an open company conflict, the same for companies. */
  lemma ResolveCompany(t: Tables, k: nat, resolution: string, now: Time)
    requires WellFormed(t) && k < |t.conflicts|
    requires resolution == "local" || resolution == "remote"
    ensures var c := t.conflicts[k];
            var (r, t') := ResolveWithCompany(t, k, resolution, now);
            match FindCompany(t.companies, c.entityId)
            case None => r == Failure(404, "company not found") && t' == t
            case Some(j) =>
              && (resolution == "local"
                  ==> r.Success? && t'.companies == t.companies[j := t.companies[j].(syncStatus := Pending)])
              && (resolution == "remote"
                  ==> (r.Success? <==> RemoteKeepsCompany(c.remoteData))
                      && (r.Success? ==> t'.companies == t.companies[j := StoredRemoteCompany(t.companies[j], c.remoteData)]))
              && (r.Success? ==> r.body.CompanyResolution? && r.body.company == t'.companies[j])
  {
    var c := t.conflicts[k];
    var j := FindCompany(t.companies, c.entityId);
    if j.Some? {
      RemoteCompanySaves(t.companies[j.value], c.remoteData);
    }
  }

  /** A conflict is resolved at most once: after a successful resolution the
      same request, with either choice, is answered "already resolved". */
  lemma ResolveTwiceFails(t: Tables, id: Id, resolution: Option<string>, now: Time,
                          again: Option<string>, later: Time)
    requires ResolveSpec(t, Some(id), resolution, now).0.Success?
    requires Accepted(again)
    ensures var t' := ResolveSpec(t, Some(id), resolution, now).1;
            ResolveSpec(t', Some(id), again, later) == (Failure(400, "Conflict already resolved"), t')
  {
    ResolveClosesConflict(t, Some(id), resolution, now);
    var k := FindConflict(t.conflicts, id).value;
    var t' := ResolveSpec(t, Some(id), resolution, now).1;
    FindConflictAfterStore(t.conflicts, id, k, t'.conflicts[k]);
  }

  /** Closing a conflict and logging keeps the database well formed. */
  lemma FinishWellFormed(t: Tables, k: nat, resolution: string, now: Time)
    requires WellFormed(t) && k < |t.conflicts|
    ensures WellFormed(Finish(t, k, resolution, now))
  {
  }

  /** The contact branch keeps the database well formed. */
  lemma ContactBranchWellFormed(t: Tables, k: nat, resolution: string, now: Time)
    requires WellFormed(t) && k < |t.conflicts|
    ensures WellFormed(ResolveWithContact(t, k, resolution, now).1)
  {
    var c := t.conflicts[k];
    var j := FindContact(t.contacts, c.entityId);
    if j.Some? {
      var saved := SaveContact(ResolvedContact(t.contacts[j.value], c.remoteData, resolution == "remote"));
      if saved.Some? {
        var u := t.(contacts := t.contacts[j.value := saved.value]);
        assert WellFormed(u);
        FinishWellFormed(u, k, resolution, now);
      }
    }
  }

  /** The company branch keeps the database well formed. */
  lemma CompanyBranchWellFormed(t: Tables, k: nat, resolution: string, now: Time)
    requires WellFormed(t) && k < |t.conflicts|
    ensures WellFormed(ResolveWithCompany(t, k, resolution, now).1)
  {
    var c := t.conflicts[k];
    var j := FindCompany(t.companies, c.entityId);
    if j.Some? {
      var saved := SaveCompany(ResolvedCompany(t.companies[j.value], c.remoteData, resolution == "remote"));
      if saved.Some? {
        var u := t.(companies := t.companies[j.value := saved.value]);
        assert WellFormed(u);
        FinishWellFormed(u, k, resolution, now);
      }
    }
  }

  /** Resolution keeps the database well formed. */
  lemma ResolveWellFormed(t: Tables, conflictId: Option<Id>, resolution: Option<string>, now: Time)
    requires WellFormed(t)
    ensures WellFormed(ResolveSpec(t, conflictId, resolution, now).1)
  {
    if conflictId.Some? && Accepted(resolution) && FindConflict(t.conflicts, conflictId.value).Some? {
      var k := FindConflict(t.conflicts, conflictId.value).value;
      if t.conflicts[k].resolved {
      } else if t.conflicts[k].entityType == ContactType {
        ContactBranchWellFormed(t, k, resolution.value, now);
      } else {
        CompanyBranchWellFormed(t, k, resolution.value, now);
      }
    }
  }
}
