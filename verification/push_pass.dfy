/** The push pass `syncLocalToHubSpot` (backend/src/services/syncService.js):
    every pending contact still under the retry limit, then every pending
    company, is sent to HubSpot (an update when it has an external id, a
    create otherwise), marked `synced` on success and counted as a failed
    attempt otherwise, with one `push` log entry per attempt.

    HubSpot's answers are a parameter: `replies(i)` is the answer to the call
    made for the record at position `i` of its collection (each record is
    attempted at most once per pass). */
module PushPass {
  import opened Common
  import opened Text
  import opened Models
  import opened Store
  import opened Payloads

  /** The outcome of one create or update call: the HubSpot id of the record,
      or the error message thrown (possibly empty). */
  datatype PushReply = Pushed(hsId: string) | PushFailed(message: string)

  /** A call the pass makes to HubSpot, with the record it sends. */
  datatype PushCall =
    | CreateContactCall(contact: ContactData)
    | UpdateContactCall(contactId: string, contact: ContactData)
    | CreateCompanyCall(company: CompanyData)
    | UpdateCompanyCall(companyId: string, company: CompanyData)

  /** `parseInt(process.env.MAX_RETRY_COUNT) || 3`: `configured` is the
      parsed value, `None` when it is not a number; 0 also falls back to 3. */
  function MaxRetry(configured: Option<int>): int {
    match configured
    case Some(m) => if m != 0 then m else 3
    case None => 3
  }

  /** The contact query `{ syncStatus: 'pending', retryCount: { $lt: maxRetry } }`. */
  predicate ContactSelected(c: Contact, maxRetry: int) {
    c.syncStatus == Pending && c.retryCount < maxRetry
  }

  /** The company query `{ syncStatus: 'pending' }`. */
  predicate CompanySelected(c: Company) {
    c.syncStatus == Pending
  }

  /** The call made for a selected contact. */
  function ContactCall(c: Contact): (call: PushCall)
    ensures call.UpdateContactCall? <==> Present(c.externalId)
    ensures call.CreateContactCall? <==> !Present(c.externalId)
    ensures call.UpdateContactCall? ==> call.contactId == c.externalId.value
    ensures call.contact == ContactFields(c)
  {
    if Present(c.externalId) then UpdateContactCall(c.externalId.value, ContactFields(c))
    else CreateContactCall(ContactFields(c))
  }

  /** The call made for a selected company. */
  function CompanyCall(c: Company): (call: PushCall)
    ensures call.UpdateCompanyCall? <==> Present(c.externalId)
    ensures call.CreateCompanyCall? <==> !Present(c.externalId)
    ensures call.UpdateCompanyCall? ==> call.companyId == c.externalId.value
    ensures call.company == CompanyFields(c)
  {
    if Present(c.externalId) then UpdateCompanyCall(c.externalId.value, CompanyFields(c))
    else CreateCompanyCall(CompanyFields(c))
  }

  /** A contact after its push: on success the new HubSpot id is kept when
      there was none, the contact is `synced` and its retry count reset; on
      failure the retry count grows by one and the contact becomes `failed`
      once it reaches the limit. */
  function PushedContact(c: Contact, reply: PushReply, maxRetry: int): Contact {
    match reply
    case Pushed(hsId) =>
      c.(externalId := if Present(c.externalId) then c.externalId else Some(hsId),
         syncStatus := Synced, retryCount := 0)
    case PushFailed(_) =>
      c.(retryCount := c.retryCount + 1,
         syncStatus := if c.retryCount + 1 >= maxRetry then Failed else c.syncStatus)
  }

  /** A company after its push: a failure marks it `failed` at once. */
  function PushedCompany(c: Company, reply: PushReply): Company {
    match reply
    case Pushed(hsId) =>
      c.(externalId := if Present(c.externalId) then c.externalId else Some(hsId),
         syncStatus := Synced)
    case PushFailed(_) => c.(syncStatus := Failed)
  }

  /** The log entry written after an attempt. */
  function PushLog(entityType: EntityType, id: Id, reply: PushReply, now: Time): SyncLog {
    match reply
    case Pushed(_) => SyncLog(entityType, id, Push, LogSuccess, "Successfully synced to HubSpot", now)
    case PushFailed(m) =>
      SyncLog(entityType, id, Push, LogError, if m != "" then m else "Failed to sync to HubSpot", now)
  }

  // ---------------------------------------------------------------------
  // The pass as a function of the database

  /** The contacts once the loop has visited the first `n` positions. */
  function PushedContacts(cs: seq<Contact>, n: nat, replies: nat -> PushReply, maxRetry: int): (r: seq<Contact>)
    requires n <= |cs|
    ensures |r| == |cs|
  {
    if n == 0 then cs
    else
      var prev := PushedContacts(cs, n - 1, replies, maxRetry);
      if ContactSelected(cs[n - 1], maxRetry)
      then prev[n - 1 := PushedContact(cs[n - 1], replies(n - 1), maxRetry)]
      else prev
  }

  /** Position `i` after visiting the first `n` positions. */
  lemma {:induction false} PushedContactsAt(cs: seq<Contact>, n: nat, replies: nat -> PushReply, maxRetry: int, i: nat)
    requires n <= |cs| && i < |cs|
    ensures PushedContacts(cs, n, replies, maxRetry)[i]
            == if i < n && ContactSelected(cs[i], maxRetry) then PushedContact(cs[i], replies(i), maxRetry) else cs[i]
  {
    if n > 0 {
      PushedContactsAt(cs, n - 1, replies, maxRetry, i);
    }
  }

  function PushedCompanies(cs: seq<Company>, n: nat, replies: nat -> PushReply): (r: seq<Company>)
    requires n <= |cs|
    ensures |r| == |cs|
  {
    if n == 0 then cs
    else
      var prev := PushedCompanies(cs, n - 1, replies);
      if CompanySelected(cs[n - 1]) then prev[n - 1 := PushedCompany(cs[n - 1], replies(n - 1))] else prev
  }

  lemma {:induction false} PushedCompaniesAt(cs: seq<Company>, n: nat, replies: nat -> PushReply, i: nat)
    requires n <= |cs| && i < |cs|
    ensures PushedCompanies(cs, n, replies)[i]
            == if i < n && CompanySelected(cs[i]) then PushedCompany(cs[i], replies(i)) else cs[i]
  {
    if n > 0 {
      PushedCompaniesAt(cs, n - 1, replies, i);
    }
  }

  /** The log entries written while visiting the first `n` contacts. */
  function ContactPushLogs(cs: seq<Contact>, n: nat, replies: nat -> PushReply, maxRetry: int, now: Time): seq<SyncLog>
    requires n <= |cs|
  {
    if n == 0 then []
    else
      ContactPushLogs(cs, n - 1, replies, maxRetry, now)
      + (if ContactSelected(cs[n - 1], maxRetry) then [PushLog(ContactType, cs[n - 1].id, replies(n - 1), now)] else [])
  }

  function CompanyPushLogs(cs: seq<Company>, n: nat, replies: nat -> PushReply, now: Time): seq<SyncLog>
    requires n <= |cs|
  {
    if n == 0 then []
    else
      CompanyPushLogs(cs, n - 1, replies, now)
      + (if CompanySelected(cs[n - 1]) then [PushLog(CompanyType, cs[n - 1].id, replies(n - 1), now)] else [])
  }

  /** The HubSpot calls made while visiting the first `n` contacts. */
  function ContactPushCalls(cs: seq<Contact>, n: nat, maxRetry: int): seq<PushCall>
    requires n <= |cs|
  {
    if n == 0 then []
    else
      ContactPushCalls(cs, n - 1, maxRetry)
      + (if ContactSelected(cs[n - 1], maxRetry) then [ContactCall(cs[n - 1])] else [])
  }

  function CompanyPushCalls(cs: seq<Company>, n: nat): seq<PushCall>
    requires n <= |cs|
  {
    if n == 0 then []
    else
      CompanyPushCalls(cs, n - 1) + (if CompanySelected(cs[n - 1]) then [CompanyCall(cs[n - 1])] else [])
  }

  /** The database once the contact loop has visited the first `n` positions. */
  function ContactsPushed(t: Tables, n: nat, replies: nat -> PushReply, maxRetry: int, now: Time): Tables
    requires n <= |t.contacts|
  {
    t.(contacts := PushedContacts(t.contacts, n, replies, maxRetry),
       logs := t.logs + ContactPushLogs(t.contacts, n, replies, maxRetry, now))
  }

  /** The database once the company loop has visited the first `n` positions. */
  function CompaniesPushed(t: Tables, n: nat, replies: nat -> PushReply, now: Time): Tables
    requires n <= |t.companies|
  {
    t.(companies := PushedCompanies(t.companies, n, replies),
       logs := t.logs + CompanyPushLogs(t.companies, n, replies, now))
  }

  /** The whole pass: the database afterwards and the calls made, contacts
      first. */
  function PushSpec(t: Tables, contactReplies: nat -> PushReply, companyReplies: nat -> PushReply,
                    maxRetry: int, now: Time): (Tables, seq<PushCall>)
  {
    var t1 := ContactsPushed(t, |t.contacts|, contactReplies, maxRetry, now);
    (CompaniesPushed(t1, |t1.companies|, companyReplies, now),
     ContactPushCalls(t.contacts, |t.contacts|, maxRetry) + CompanyPushCalls(t1.companies, |t1.companies|))
  }

  // ---------------------------------------------------------------------
  // The loops on the database

  /** One attempt on a selected contact: the call's outcome is saved, then
      logged. */
  method PushOneContact(db: Database, i: nat, reply: PushReply, maxRetry: int, now: Time)
    requires db.Valid() && i < |db.contacts|
    modifies db
    ensures db.Valid()
    ensures db.State() == old(db.State()).(contacts := old(db.contacts)[i := PushedContact(old(db.contacts)[i], reply, maxRetry)],
                                          logs := old(db.logs) + [PushLog(ContactType, old(db.contacts)[i].id, reply, now)])
  {
    var c := db.contacts[i];
    var saved := db.StoreContact(i, PushedContact(c, reply, maxRetry));
    db.AppendLog(Some(PushLog(ContactType, c.id, reply, now)));
  }

  /** One attempt on a selected company. */
  method PushOneCompany(db: Database, i: nat, reply: PushReply, now: Time)
    requires db.Valid() && i < |db.companies|
    modifies db
    ensures db.Valid()
    ensures db.State() == old(db.State()).(companies := old(db.companies)[i := PushedCompany(old(db.companies)[i], reply)],
                                          logs := old(db.logs) + [PushLog(CompanyType, old(db.companies)[i].id, reply, now)])
  {
    var c := db.companies[i];
    var saved := db.StoreCompany(i, PushedCompany(c, reply));
    db.AppendLog(Some(PushLog(CompanyType, c.id, reply, now)));
  }

  /** One turn of the contact loop: the call made, if the contact at `i` is
      selected. */
  method VisitPushContact(db: Database, ghost t: Tables, i: nat, replies: nat -> PushReply, maxRetry: int, now: Time)
    returns (made: seq<PushCall>)
    requires db.Valid() && i < |t.contacts| && db.State() == ContactsPushed(t, i, replies, maxRetry, now)
    modifies db
    ensures db.Valid()
    ensures db.State() == ContactsPushed(t, i + 1, replies, maxRetry, now)
    ensures ContactPushCalls(t.contacts, i + 1, maxRetry) == ContactPushCalls(t.contacts, i, maxRetry) + made
  {
    PushedContactsAt(t.contacts, i, replies, maxRetry, i);
    var c := db.contacts[i];
    made := [];
    if ContactSelected(c, maxRetry) {
      made := [ContactCall(c)];
      PushOneContact(db, i, replies(i), maxRetry, now);
    }
  }

  /** One turn of the company loop. */
  method VisitPushCompany(db: Database, ghost t: Tables, i: nat, replies: nat -> PushReply, now: Time)
    returns (made: seq<PushCall>)
    requires db.Valid() && i < |t.companies| && db.State() == CompaniesPushed(t, i, replies, now)
    modifies db
    ensures db.Valid()
    ensures db.State() == CompaniesPushed(t, i + 1, replies, now)
    ensures CompanyPushCalls(t.companies, i + 1) == CompanyPushCalls(t.companies, i) + made
  {
    PushedCompaniesAt(t.companies, i, replies, i);
    var c := db.companies[i];
    made := [];
    if CompanySelected(c) {
      made := [CompanyCall(c)];
      PushOneCompany(db, i, replies(i), now);
    }
  }

  /** The contact loop. */
  method PushContacts(db: Database, replies: nat -> PushReply, maxRetry: int, now: Time)
    returns (calls: seq<PushCall>)
    requires db.Valid()
    modifies db
    ensures db.Valid()
    ensures db.State() == ContactsPushed(old(db.State()), |old(db.contacts)|, replies, maxRetry, now)
    ensures calls == ContactPushCalls(old(db.contacts), |old(db.contacts)|, maxRetry)
  {
    ghost var t := db.State();
    calls := [];
    var i := 0;
    while i < |db.contacts|
      invariant db.Valid() && |db.contacts| == |t.contacts|
      invariant 0 <= i <= |t.contacts|
      invariant db.State() == ContactsPushed(t, i, replies, maxRetry, now)
      invariant calls == ContactPushCalls(t.contacts, i, maxRetry)
      decreases |t.contacts| - i
    {
      var made := VisitPushContact(db, t, i, replies, maxRetry, now);
      calls := calls + made;
      i := i + 1;
    }
  }

  /** The company loop. */
  method PushCompanies(db: Database, replies: nat -> PushReply, now: Time)
    returns (calls: seq<PushCall>)
    requires db.Valid()
    modifies db
    ensures db.Valid()
    ensures db.State() == CompaniesPushed(old(db.State()), |old(db.companies)|, replies, now)
    ensures calls == CompanyPushCalls(old(db.companies), |old(db.companies)|)
  {
    ghost var t := db.State();
    calls := [];
    var i := 0;
    while i < |db.companies|
      invariant db.Valid() && |db.companies| == |t.companies|
      invariant 0 <= i <= |t.companies|
      invariant db.State() == CompaniesPushed(t, i, replies, now)
      invariant calls == CompanyPushCalls(t.companies, i)
      decreases |t.companies| - i
    {
      var made := VisitPushCompany(db, t, i, replies, now);
      calls := calls + made;
      i := i + 1;
    }
  }

  /** `syncLocalToHubSpot()`: the contact loop under the configured retry
      limit, then the company loop; returns the calls made. */
  method SyncLocalToHubSpot(db: Database, configuredRetry: Option<int>, contactReplies: nat -> PushReply,
                            companyReplies: nat -> PushReply, now: Time)
    returns (calls: seq<PushCall>)
    requires db.Valid()
    modifies db
    ensures db.Valid()
    ensures (db.State(), calls) == PushSpec(old(db.State()), contactReplies, companyReplies, MaxRetry(configuredRetry), now)
  {
    var maxRetry := MaxRetry(configuredRetry);
    var contactCalls := PushContacts(db, contactReplies, maxRetry, now);
    var companyCalls := PushCompanies(db, companyReplies, now);
    calls := contactCalls + companyCalls;
  }

  // ---------------------------------------------------------------------
  // Properties of one attempt

  /** A successful push leaves the contact synced with no retries, under the
      external id it had or else the one HubSpot returned, out of the
      selection, and otherwise as it was. */
  lemma PushSucceeded(c: Contact, hsId: string, maxRetry: int)
    ensures var r := PushedContact(c, Pushed(hsId), maxRetry);
            && r.syncStatus == Synced && r.retryCount == 0
            && r.externalId == (if Present(c.externalId) then c.externalId else Some(hsId))
            && !ContactSelected(r, maxRetry)
            && r.(externalId := c.externalId, syncStatus := c.syncStatus, retryCount := c.retryCount) == c
  {
  }

  /** A failed push of a selected contact counts one more attempt; the
      contact stays selected (pending) while the count is below the limit
      and becomes `failed` when it reaches it; nothing else changes. */
  lemma PushFailedContact(c: Contact, message: string, maxRetry: int)
    requires ContactSelected(c, maxRetry)
    ensures var r := PushedContact(c, PushFailed(message), maxRetry);
            && r.retryCount == c.retryCount + 1
            && (ContactSelected(r, maxRetry) <==> c.retryCount + 1 < maxRetry)
            && (r.syncStatus == Failed <==> c.retryCount + 1 >= maxRetry)
            && (r.syncStatus == Pending <==> c.retryCount + 1 < maxRetry)
            && r.(retryCount := c.retryCount, syncStatus := c.syncStatus) == c
  {
  }

  /** A company push has no retry: it ends `synced` or `failed`, never
      pending, and only its status and external id change. */
  lemma PushedCompanyFinal(c: Company, reply: PushReply)
    ensures var r := PushedCompany(c, reply);
            && !CompanySelected(r)
            && (r.syncStatus == Synced <==> reply.Pushed?)
            && (r.syncStatus == Failed <==> reply.PushFailed?)
            && (reply.PushFailed? ==> r.externalId == c.externalId)
            && r.(externalId := c.externalId, syncStatus := c.syncStatus) == c
  {
  }

  /** Once a push has succeeded with a usable id, the next push of the
      record, whatever was edited since, updates that same HubSpot record
      instead of creating a second one. */
  lemma NoSecondCreate(c: Contact, hsId: string, maxRetry: int, edited: Contact)
    requires Present(c.externalId) || hsId != ""
    requires edited.externalId == PushedContact(c, Pushed(hsId), maxRetry).externalId
    ensures ContactCall(edited)
            == UpdateContactCall(if Present(c.externalId) then c.externalId.value else hsId, ContactFields(edited))
  {
  }

  // ---------------------------------------------------------------------
  // Retry exhaustion across passes

  /** A contact after `k` passes in each of which its push fails (it is only
      attempted while selected). */
  function FailingPasses(c: Contact, k: nat, maxRetry: int): Contact {
    if k == 0 then c
    else
      var prev := FailingPasses(c, k - 1, maxRetry);
      if ContactSelected(prev, maxRetry) then PushedContact(prev, PushFailed(""), maxRetry) else prev
  }

  /** The number of those `k` passes that attempt the contact. */
  function FailingAttempts(c: Contact, k: nat, maxRetry: int): nat {
    if k == 0 then 0
    else FailingAttempts(c, k - 1, maxRetry) + (if ContactSelected(FailingPasses(c, k - 1, maxRetry), maxRetry) then 1 else 0)
  }

  function Min(a: int, b: int): int {
    if a <= b then a else b
  }

  /** A selected contact whose push keeps failing is attempted exactly
      `maxRetry - retryCount` more times: its count then reaches the limit,
      it is `failed`, and no later pass picks it up. */
  lemma {:induction false} RetryExhaustion(c: Contact, k: nat, maxRetry: int)
    requires ContactSelected(c, maxRetry)
    ensures FailingAttempts(c, k, maxRetry) == Min(k, maxRetry - c.retryCount)
    ensures FailingPasses(c, k, maxRetry)
            == c.(retryCount := c.retryCount + Min(k, maxRetry - c.retryCount),
                  syncStatus := if c.retryCount + k >= maxRetry then Failed else Pending)
    ensures ContactSelected(FailingPasses(c, k, maxRetry), maxRetry) <==> c.retryCount + k < maxRetry
  {
    if k > 0 {
      RetryExhaustion(c, k - 1, maxRetry);
    }
  }

  // ---------------------------------------------------------------------
  // Properties of the pass

  /** One log entry and one call per selected contact. */
  lemma {:induction false} ContactPushCounts(cs: seq<Contact>, n: nat, replies: nat -> PushReply, maxRetry: int, now: Time)
    requires n <= |cs|
    ensures |ContactPushLogs(cs, n, replies, maxRetry, now)| == Count(cs[..n], c => ContactSelected(c, maxRetry))
    ensures |ContactPushCalls(cs, n, maxRetry)| == Count(cs[..n], c => ContactSelected(c, maxRetry))
  {
    if n > 0 {
      ContactPushCounts(cs, n - 1, replies, maxRetry, now);
      assert cs[..n][..n - 1] == cs[..n - 1];
    }
  }

  /** One log entry and one call per pending company. */
  lemma {:induction false} CompanyPushCounts(cs: seq<Company>, n: nat, replies: nat -> PushReply, now: Time)
    requires n <= |cs|
    ensures |CompanyPushLogs(cs, n, replies, now)| == Count(cs[..n], CompanySelected)
    ensures |CompanyPushCalls(cs, n)| == Count(cs[..n], CompanySelected)
  {
    if n > 0 {
      CompanyPushCounts(cs, n - 1, replies, now);
      assert cs[..n][..n - 1] == cs[..n - 1];
    }
  }

  /** The pass attempts every selected contact and every pending company
      once, leaves the other records, the conflicts and the id generator
      alone, and writes one log entry and makes one call per attempt. */
  lemma PushOutcome(t: Tables, contactReplies: nat -> PushReply, companyReplies: nat -> PushReply,
                    maxRetry: int, now: Time)
    ensures var t' := PushSpec(t, contactReplies, companyReplies, maxRetry, now).0;
            && |t'.contacts| == |t.contacts| && |t'.companies| == |t.companies|
            && t'.conflicts == t.conflicts && t'.nextId == t.nextId
    ensures forall i :: 0 <= i < |t.contacts| ==>
              PushSpec(t, contactReplies, companyReplies, maxRetry, now).0.contacts[i]
              == if ContactSelected(t.contacts[i], maxRetry)
                 then PushedContact(t.contacts[i], contactReplies(i), maxRetry) else t.contacts[i]
    ensures forall i :: 0 <= i < |t.companies| ==>
              PushSpec(t, contactReplies, companyReplies, maxRetry, now).0.companies[i]
              == if CompanySelected(t.companies[i]) then PushedCompany(t.companies[i], companyReplies(i)) else t.companies[i]
    ensures |PushSpec(t, contactReplies, companyReplies, maxRetry, now).0.logs|
            == |t.logs| + Count(t.contacts, c => ContactSelected(c, maxRetry)) + Count(t.companies, CompanySelected)
    ensures |PushSpec(t, contactReplies, companyReplies, maxRetry, now).1|
            == Count(t.contacts, c => ContactSelected(c, maxRetry)) + Count(t.companies, CompanySelected)
  {
    var t1 := ContactsPushed(t, |t.contacts|, contactReplies, maxRetry, now);
    var t' := PushSpec(t, contactReplies, companyReplies, maxRetry, now).0;
    assert t1.companies == t.companies;
    forall i | 0 <= i < |t.contacts|
      ensures t'.contacts[i] == if ContactSelected(t.contacts[i], maxRetry)
                                then PushedContact(t.contacts[i], contactReplies(i), maxRetry) else t.contacts[i]
    {
      PushedContactsAt(t.contacts, |t.contacts|, contactReplies, maxRetry, i);
    }
    forall i | 0 <= i < |t.companies|
      ensures t'.companies[i] == if CompanySelected(t.companies[i]) then PushedCompany(t.companies[i], companyReplies(i)) else t.companies[i]
    {
      PushedCompaniesAt(t.companies, |t.companies|, companyReplies, i);
    }
    ContactPushCounts(t.contacts, |t.contacts|, contactReplies, maxRetry, now);
    CompanyPushCounts(t.companies, |t.companies|, companyReplies, now);
    assert t.contacts[..|t.contacts|] == t.contacts;
    assert t.companies[..|t.companies|] == t.companies;
  }

  /** After the pass, no company is pending, and a contact is still selected
      only if it was selected and its push failed below the limit. */
  lemma PushLeavesOnlyRetries(t: Tables, contactReplies: nat -> PushReply, companyReplies: nat -> PushReply,
                              maxRetry: int, now: Time)
    ensures forall c :: c in PushSpec(t, contactReplies, companyReplies, maxRetry, now).0.companies ==> !CompanySelected(c)
    ensures forall i :: 0 <= i < |t.contacts| && ContactSelected(PushSpec(t, contactReplies, companyReplies, maxRetry, now).0.contacts[i], maxRetry) ==>
              ContactSelected(t.contacts[i], maxRetry) && contactReplies(i).PushFailed? && t.contacts[i].retryCount + 1 < maxRetry
  {
    PushOutcome(t, contactReplies, companyReplies, maxRetry, now);
    var t' := PushSpec(t, contactReplies, companyReplies, maxRetry, now).0;
    forall c | c in t'.companies
      ensures !CompanySelected(c)
    {
      var i :| 0 <= i < |t'.companies| && t'.companies[i] == c;
      PushedCompanyFinal(t.companies[i], companyReplies(i));
    }
  }

  /** Pushing keeps every contact in schema form and under the id bound. */
  lemma PushedContactsInSchema(cs: seq<Contact>, n: nat, replies: nat -> PushReply, maxRetry: int, bound: Id)
    requires n <= |cs|
    requires forall i :: 0 <= i < |cs| ==> cs[i].id < bound && ContactInSchema(cs[i])
    ensures forall i :: 0 <= i < |cs| ==>
              PushedContacts(cs, n, replies, maxRetry)[i].id < bound
              && ContactInSchema(PushedContacts(cs, n, replies, maxRetry)[i])
  {
    forall i | 0 <= i < |cs|
      ensures PushedContacts(cs, n, replies, maxRetry)[i].id < bound
              && ContactInSchema(PushedContacts(cs, n, replies, maxRetry)[i])
    {
      PushedContactsAt(cs, n, replies, maxRetry, i);
    }
  }

  /** Pushing keeps every company in schema form and under the id bound. */
  lemma PushedCompaniesInSchema(cs: seq<Company>, n: nat, replies: nat -> PushReply, bound: Id)
    requires n <= |cs|
    requires forall i :: 0 <= i < |cs| ==> cs[i].id < bound && CompanyInSchema(cs[i])
    ensures forall i :: 0 <= i < |cs| ==>
              PushedCompanies(cs, n, replies)[i].id < bound && CompanyInSchema(PushedCompanies(cs, n, replies)[i])
  {
    forall i | 0 <= i < |cs|
      ensures PushedCompanies(cs, n, replies)[i].id < bound && CompanyInSchema(PushedCompanies(cs, n, replies)[i])
    {
      PushedCompaniesAt(cs, n, replies, i);
    }
  }

  /** The pass keeps the database well formed. */
  lemma PushWellFormed(t: Tables, contactReplies: nat -> PushReply, companyReplies: nat -> PushReply,
                       maxRetry: int, now: Time)
    requires WellFormed(t)
    ensures WellFormed(PushSpec(t, contactReplies, companyReplies, maxRetry, now).0)
  {
    PushedContactsInSchema(t.contacts, |t.contacts|, contactReplies, maxRetry, t.nextId);
    var t1 := ContactsPushed(t, |t.contacts|, contactReplies, maxRetry, now);
    assert WellFormed(t1);
    PushedCompaniesInSchema(t1.companies, |t1.companies|, companyReplies, t1.nextId);
  }
}
