/** The record loops of `runFullSync` in local mode
    (backend/src/services/syncService.js): every `pending` contact, then every
    `pending` company, is marked `synced` under the synthetic external id
    `'local-' + _id`, with one `push`/`success` log entry each.

    A database failure is modelled by the set of records whose save throws:
    the loop stops at the first pending record in that set, and the later
    records are not visited. */
module LocalSync {
  import opened Common
  import opened Text
  import opened Models
  import opened Store

  predicate ContactPending(c: Contact) {
    c.syncStatus == Pending
  }

  predicate CompanyPending(c: Company) {
    c.syncStatus == Pending
  }

  /** `'local-' + _id`. */
  function LocalId(id: Id): (s: string)
    ensures |s| > 6 && s[..6] == "local-"
  {
    "local-" + NatText(id)
  }

  function MarkContact(c: Contact): Contact {
    c.(syncStatus := Synced, externalId := Some(LocalId(c.id)))
  }

  function MarkCompany(c: Company): Company {
    c.(syncStatus := Synced, externalId := Some(LocalId(c.id)))
  }

  /** The entry written after each record is marked. */
  function LocalLog(entityType: EntityType, id: Id, now: Time): SyncLog {
    SyncLog(entityType, id, Push, LogSuccess, "Synced locally", now)
  }

  /** The contact at `i` is pending and its save throws. */
  predicate ContactFails(cs: seq<Contact>, i: nat, faulty: set<Id>)
    requires i < |cs|
  {
    ContactPending(cs[i]) && cs[i].id in faulty
  }

  /** The company at `i` is pending and its save throws. */
  predicate CompanyFails(cs: seq<Company>, i: nat, faulty: set<Id>)
    requires i < |cs|
  {
    CompanyPending(cs[i]) && cs[i].id in faulty
  }

  /** The loop moves past a position whose save does not throw. */
  lemma ContactStopNext(cs: seq<Contact>, faulty: set<Id>, i: nat)
    requires i < |cs| && i <= ContactStop(cs, faulty) && !ContactFails(cs, i, faulty)
    ensures i + 1 <= ContactStop(cs, faulty)
  {
  }

  /** The loop stops at the first position whose save throws. */
  lemma ContactStopAt(cs: seq<Contact>, faulty: set<Id>, i: nat)
    requires i < |cs| && i <= ContactStop(cs, faulty) && ContactFails(cs, i, faulty)
    ensures ContactStop(cs, faulty) == i
  {
  }

  lemma CompanyStopNext(cs: seq<Company>, faulty: set<Id>, i: nat)
    requires i < |cs| && i <= CompanyStop(cs, faulty) && !CompanyFails(cs, i, faulty)
    ensures i + 1 <= CompanyStop(cs, faulty)
  {
  }

  /** The loop stops at the first position whose save throws. */
  lemma CompanyStopAt(cs: seq<Company>, faulty: set<Id>, i: nat)
    requires i < |cs| && i <= CompanyStop(cs, faulty) && CompanyFails(cs, i, faulty)
    ensures CompanyStop(cs, faulty) == i
  {
  }

  /** Position of the first pending contact whose save throws, or the length
      of the collection when every save succeeds. */
  function ContactStop(cs: seq<Contact>, faulty: set<Id>): (n: nat)
    ensures n <= |cs|
    ensures n < |cs| ==> ContactFails(cs, n, faulty)
    ensures forall i :: 0 <= i < n ==> !ContactFails(cs, i, faulty)
  {
    match FirstIndex(cs, (c: Contact) => ContactPending(c) && c.id in faulty)
    case None => |cs|
    case Some(f) => f
  }

  function CompanyStop(cs: seq<Company>, faulty: set<Id>): (n: nat)
    ensures n <= |cs|
    ensures n < |cs| ==> CompanyFails(cs, n, faulty)
    ensures forall i :: 0 <= i < n ==> !CompanyFails(cs, i, faulty)
  {
    match FirstIndex(cs, (c: Company) => CompanyPending(c) && c.id in faulty)
    case None => |cs|
    case Some(f) => f
  }

  /** The contacts once the loop has visited the first `n` positions. */
  function MarkedContacts(cs: seq<Contact>, n: nat): (r: seq<Contact>)
    requires n <= |cs|
    ensures |r| == |cs|
  {
    if n == 0 then cs
    else
      var prev := MarkedContacts(cs, n - 1);
      if ContactPending(cs[n - 1]) then prev[n - 1 := MarkContact(cs[n - 1])] else prev
  }
  /** Position `i` after visiting the first `n` positions: marked when it
      was visited and pending, as it was otherwise. */
  lemma {:induction false} MarkedContactsAt(cs: seq<Contact>, n: nat, i: nat)
    requires n <= |cs| && i < |cs|
    ensures MarkedContacts(cs, n)[i] == if i < n && ContactPending(cs[i]) then MarkContact(cs[i]) else cs[i]
  {
    if n > 0 {
      MarkedContactsAt(cs, n - 1, i);
    }
  }


  function MarkedCompanies(cs: seq<Company>, n: nat): (r: seq<Company>)
    requires n <= |cs|
    ensures |r| == |cs|
  {
    if n == 0 then cs
    else
      var prev := MarkedCompanies(cs, n - 1);
      if CompanyPending(cs[n - 1]) then prev[n - 1 := MarkCompany(cs[n - 1])] else prev
  }
  /** Position `i` after visiting the first `n` positions: marked when it
      was visited and pending, as it was otherwise. */
  lemma {:induction false} MarkedCompaniesAt(cs: seq<Company>, n: nat, i: nat)
    requires n <= |cs| && i < |cs|
    ensures MarkedCompanies(cs, n)[i] == if i < n && CompanyPending(cs[i]) then MarkCompany(cs[i]) else cs[i]
  {
    if n > 0 {
      MarkedCompaniesAt(cs, n - 1, i);
    }
  }


  /** The log entries written while visiting the first `n` contacts. */
  function ContactLogs(cs: seq<Contact>, n: nat, now: Time): seq<SyncLog>
    requires n <= |cs|
  {
    if n == 0 then []
    else
      ContactLogs(cs, n - 1, now)
      + (if ContactPending(cs[n - 1]) then [LocalLog(ContactType, cs[n - 1].id, now)] else [])
  }

  function CompanyLogs(cs: seq<Company>, n: nat, now: Time): seq<SyncLog>
    requires n <= |cs|
  {
    if n == 0 then []
    else
      CompanyLogs(cs, n - 1, now)
      + (if CompanyPending(cs[n - 1]) then [LocalLog(CompanyType, cs[n - 1].id, now)] else [])
  }

  /** The database once the contact loop has visited the first `n`
      positions. */
  function ContactsVisited(t: Tables, n: nat, now: Time): Tables
    requires n <= |t.contacts|
  {
    t.(contacts := MarkedContacts(t.contacts, n), logs := t.logs + ContactLogs(t.contacts, n, now))
  }

  /** The database once the company loop has visited the first `n`
      positions. */
  function CompaniesVisited(t: Tables, n: nat, now: Time): Tables
    requires n <= |t.companies|
  {
    t.(companies := MarkedCompanies(t.companies, n), logs := t.logs + CompanyLogs(t.companies, n, now))
  }

  /** Both loops as a function of the database: the database afterwards and
      whether they completed without an error. */
  function LocalSyncSpec(t: Tables, faulty: set<Id>, now: Time): (Tables, bool) {
    var nc := ContactStop(t.contacts, faulty);
    var t1 := ContactsVisited(t, nc, now);
    if nc < |t.contacts| then (t1, false)
    else
      var nm := CompanyStop(t1.companies, faulty);
      (CompaniesVisited(t1, nm, now), nm == |t1.companies|)
  }

  // ---------------------------------------------------------------------
  // The loops on the database

  /** One iteration of the contact loop on a pending contact. */
  method MarkOneContact(db: Database, i: nat, now: Time)
    requires db.Valid() && i < |db.contacts|
    modifies db
    ensures db.Valid()
    ensures db.State() == old(db.State()).(contacts := old(db.contacts)[i := MarkContact(old(db.contacts)[i])],
                                          logs := old(db.logs) + [LocalLog(ContactType, old(db.contacts)[i].id, now)])
  {
    var c := db.contacts[i];
    var saved := db.StoreContact(i, MarkContact(c));
    db.AppendLog(Some(LocalLog(ContactType, c.id, now)));
  }

  /** One iteration of the company loop on a pending company. */
  method MarkOneCompany(db: Database, i: nat, now: Time)
    requires db.Valid() && i < |db.companies|
    modifies db
    ensures db.Valid()
    ensures db.State() == old(db.State()).(companies := old(db.companies)[i := MarkCompany(old(db.companies)[i])],
                                          logs := old(db.logs) + [LocalLog(CompanyType, old(db.companies)[i].id, now)])
  {
    var c := db.companies[i];
    var saved := db.StoreCompany(i, MarkCompany(c));
    db.AppendLog(Some(LocalLog(CompanyType, c.id, now)));
  }

  /** One turn of the contact loop: stops at a pending contact whose save
      throws, otherwise marks position `i` when it is pending. */
  method VisitContact(db: Database, ghost t: Tables, i: nat, faulty: set<Id>, now: Time)
    returns (stop: bool)
    requires db.Valid() && i < |t.contacts| && db.State() == ContactsVisited(t, i, now)
    modifies db
    ensures db.Valid()
    ensures stop == ContactFails(t.contacts, i, faulty)
    ensures stop ==> db.State() == old(db.State())
    ensures !stop ==> db.State() == ContactsVisited(t, i + 1, now)
  {
    MarkedContactsAt(t.contacts, i, i);
    stop := ContactPending(db.contacts[i]) && db.contacts[i].id in faulty;
    if !stop && ContactPending(db.contacts[i]) {
      MarkOneContact(db, i, now);
    }
  }

  /** One turn of the company loop. */
  method VisitCompany(db: Database, ghost t: Tables, i: nat, faulty: set<Id>, now: Time)
    returns (stop: bool)
    requires db.Valid() && i < |t.companies| && db.State() == CompaniesVisited(t, i, now)
    modifies db
    ensures db.Valid()
    ensures stop == CompanyFails(t.companies, i, faulty)
    ensures stop ==> db.State() == old(db.State())
    ensures !stop ==> db.State() == CompaniesVisited(t, i + 1, now)
  {
    MarkedCompaniesAt(t.companies, i, i);
    stop := CompanyPending(db.companies[i]) && db.companies[i].id in faulty;
    if !stop && CompanyPending(db.companies[i]) {
      MarkOneCompany(db, i, now);
    }
  }

  /** The contact loop: marks pending contacts in store order until a save
      throws. */
  method MarkPendingContacts(db: Database, faulty: set<Id>, now: Time) returns (ok: bool)
    requires db.Valid()
    modifies db
    ensures db.Valid()
    ensures ok == (ContactStop(old(db.contacts), faulty) == |old(db.contacts)|)
    ensures db.State() == ContactsVisited(old(db.State()), ContactStop(old(db.contacts), faulty), now)
  {
    ghost var t := db.State();
    ghost var n := ContactStop(t.contacts, faulty);
    var len, i := |db.contacts|, 0;
    while i < len
      invariant db.Valid() && len == |t.contacts|
      invariant 0 <= i <= n <= len
      invariant db.State() == ContactsVisited(t, i, now)
      decreases |t.contacts| - i
    {
      var stop := VisitContact(db, t, i, faulty, now);
      if stop {
        ContactStopAt(t.contacts, faulty, i);
        return false;
      }
      ContactStopNext(t.contacts, faulty, i);
      i := i + 1;
    }
    return true;
  }

  /** The company loop. */
  method MarkPendingCompanies(db: Database, faulty: set<Id>, now: Time) returns (ok: bool)
    requires db.Valid()
    modifies db
    ensures db.Valid()
    ensures ok == (CompanyStop(old(db.companies), faulty) == |old(db.companies)|)
    ensures db.State() == CompaniesVisited(old(db.State()), CompanyStop(old(db.companies), faulty), now)
  {
    ghost var t := db.State();
    ghost var n := CompanyStop(t.companies, faulty);
    var len, i := |db.companies|, 0;
    while i < len
      invariant db.Valid() && len == |t.companies|
      invariant 0 <= i <= n <= len
      invariant db.State() == CompaniesVisited(t, i, now)
      decreases |t.companies| - i
    {
      var stop := VisitCompany(db, t, i, faulty, now);
      if stop {
        CompanyStopAt(t.companies, faulty, i);
        return false;
      }
      CompanyStopNext(t.companies, faulty, i);
      i := i + 1;
    }
    return true;
  }

  // ---------------------------------------------------------------------
  // Properties of a local sync run

  /** A prefix with no pending contact is left as it is and logs nothing. */
  lemma {:induction false} ContactsQuietPrefix(cs: seq<Contact>, n: nat, now: Time)
    requires n <= |cs|
    requires forall i :: 0 <= i < n ==> !ContactPending(cs[i])
    ensures MarkedContacts(cs, n) == cs && ContactLogs(cs, n, now) == []
  {
    if n > 0 {
      ContactsQuietPrefix(cs, n - 1, now);
    }
  }

  lemma {:induction false} CompaniesQuietPrefix(cs: seq<Company>, n: nat, now: Time)
    requires n <= |cs|
    requires forall i :: 0 <= i < n ==> !CompanyPending(cs[i])
    ensures MarkedCompanies(cs, n) == cs && CompanyLogs(cs, n, now) == []
  {
    if n > 0 {
      CompaniesQuietPrefix(cs, n - 1, now);
    }
  }

  /** One `push`/`success` entry per pending contact visited, each about a
      contact. */
  lemma {:induction false} ContactLogsShape(cs: seq<Contact>, n: nat, now: Time)
    requires n <= |cs|
    ensures |ContactLogs(cs, n, now)| == Count(cs[..n], ContactPending)
    ensures forall e :: e in ContactLogs(cs, n, now) ==>
              e == LocalLog(ContactType, e.entityId, now)
  {
    if n > 0 {
      ContactLogsShape(cs, n - 1, now);
      assert cs[..n][..n - 1] == cs[..n - 1];
    }
  }

  /** One `push`/`success` entry per pending company visited, each about a
      company. */
  lemma {:induction false} CompanyLogsShape(cs: seq<Company>, n: nat, now: Time)
    requires n <= |cs|
    ensures |CompanyLogs(cs, n, now)| == Count(cs[..n], CompanyPending)
    ensures forall e :: e in CompanyLogs(cs, n, now) ==>
              e == LocalLog(CompanyType, e.entityId, now)
  {
    if n > 0 {
      CompanyLogsShape(cs, n - 1, now);
      assert cs[..n][..n - 1] == cs[..n - 1];
    }
  }

  /** The run completes exactly when no pending record, contact or company,
      is one whose save throws; conflicts and the id generator are never
      touched. */
  lemma LocalSyncCompletes(t: Tables, faulty: set<Id>, now: Time)
    ensures LocalSyncSpec(t, faulty, now).1
            <==> (forall i :: 0 <= i < |t.contacts| ==> !ContactFails(t.contacts, i, faulty))
                 && (forall i :: 0 <= i < |t.companies| ==> !CompanyFails(t.companies, i, faulty))
    ensures LocalSyncSpec(t, faulty, now).0.conflicts == t.conflicts
    ensures LocalSyncSpec(t, faulty, now).0.nextId == t.nextId
  {
    var nc := ContactStop(t.contacts, faulty);
    if nc == |t.contacts| {
      var nm := CompanyStop(t.companies, faulty);
      if nm < |t.companies| {
        assert CompanyFails(t.companies, nm, faulty);
      }
    } else {
      assert ContactFails(t.contacts, nc, faulty);
    }
  }

  /** A completed run leaves every pending record synced under its local
      external id, every other record as it was, and one log entry per
      pending record, contacts first. */
  lemma LocalSyncMarksPending(t: Tables, faulty: set<Id>, now: Time)
    requires LocalSyncSpec(t, faulty, now).1
    ensures var t' := LocalSyncSpec(t, faulty, now).0;
            |t'.contacts| == |t.contacts| && |t'.companies| == |t.companies|
    ensures forall i :: 0 <= i < |t.contacts| ==>
              LocalSyncSpec(t, faulty, now).0.contacts[i]
              == if ContactPending(t.contacts[i]) then MarkContact(t.contacts[i]) else t.contacts[i]
    ensures forall i :: 0 <= i < |t.companies| ==>
              LocalSyncSpec(t, faulty, now).0.companies[i]
              == if CompanyPending(t.companies[i]) then MarkCompany(t.companies[i]) else t.companies[i]
    ensures LocalSyncSpec(t, faulty, now).0.logs
            == t.logs + ContactLogs(t.contacts, |t.contacts|, now) + CompanyLogs(t.companies, |t.companies|, now)
    ensures |LocalSyncSpec(t, faulty, now).0.logs|
            == |t.logs| + Count(t.contacts, ContactPending) + Count(t.companies, CompanyPending)
  {
    var t' := LocalSyncSpec(t, faulty, now).0;
    assert ContactStop(t.contacts, faulty) == |t.contacts|;
    assert CompanyStop(t.companies, faulty) == |t.companies|;
    forall i | 0 <= i < |t.contacts|
      ensures t'.contacts[i] == if ContactPending(t.contacts[i]) then MarkContact(t.contacts[i]) else t.contacts[i]
    {
      MarkedContactsAt(t.contacts, |t.contacts|, i);
    }
    forall i | 0 <= i < |t.companies|
      ensures t'.companies[i] == if CompanyPending(t.companies[i]) then MarkCompany(t.companies[i]) else t.companies[i]
    {
      MarkedCompaniesAt(t.companies, |t.companies|, i);
    }
    ContactLogsShape(t.contacts, |t.contacts|, now);
    CompanyLogsShape(t.companies, |t.companies|, now);
    assert t.contacts[..|t.contacts|] == t.contacts;
    assert t.companies[..|t.companies|] == t.companies;
  }

  /** After a completed run no record is pending any more. */
  lemma NothingPendingAfter(t: Tables, faulty: set<Id>, now: Time)
    requires LocalSyncSpec(t, faulty, now).1
    ensures forall c :: c in LocalSyncSpec(t, faulty, now).0.contacts ==> !ContactPending(c)
    ensures forall c :: c in LocalSyncSpec(t, faulty, now).0.companies ==> !CompanyPending(c)
  {
    LocalSyncMarksPending(t, faulty, now);
  }

  /** Whatever the outcome, a pending record whose save throws is left as
      it was, and every other record is either as it was or a pending
      record now marked. */
  lemma LocalSyncRecordFate(t: Tables, faulty: set<Id>, now: Time)
    ensures var t' := LocalSyncSpec(t, faulty, now).0;
            |t'.contacts| == |t.contacts| && |t'.companies| == |t.companies|
    ensures forall i :: 0 <= i < |t.contacts| ==>
              var c' := LocalSyncSpec(t, faulty, now).0.contacts[i];
              c' == t.contacts[i] || (ContactPending(t.contacts[i]) && c' == MarkContact(t.contacts[i]))
    ensures forall i :: 0 <= i < |t.contacts| && ContactFails(t.contacts, i, faulty) ==>
              LocalSyncSpec(t, faulty, now).0.contacts[i] == t.contacts[i]
    ensures forall i :: 0 <= i < |t.companies| ==>
              var c' := LocalSyncSpec(t, faulty, now).0.companies[i];
              c' == t.companies[i] || (CompanyPending(t.companies[i]) && c' == MarkCompany(t.companies[i]))
    ensures forall i :: 0 <= i < |t.companies| && CompanyFails(t.companies, i, faulty) ==>
              LocalSyncSpec(t, faulty, now).0.companies[i] == t.companies[i]
  {
    var t' := LocalSyncSpec(t, faulty, now).0;
    var nc := ContactStop(t.contacts, faulty);
    forall i | 0 <= i < |t.contacts|
      ensures t'.contacts[i] == t.contacts[i] || (ContactPending(t.contacts[i]) && t'.contacts[i] == MarkContact(t.contacts[i]))
      ensures ContactFails(t.contacts, i, faulty) ==> t'.contacts[i] == t.contacts[i]
    {
      MarkedContactsAt(t.contacts, nc, i);
    }
    if nc == |t.contacts| {
      var nm := CompanyStop(t.companies, faulty);
      forall i | 0 <= i < |t.companies|
        ensures t'.companies[i] == t.companies[i] || (CompanyPending(t.companies[i]) && t'.companies[i] == MarkCompany(t.companies[i]))
        ensures CompanyFails(t.companies, i, faulty) ==> t'.companies[i] == t.companies[i]
      {
        MarkedCompaniesAt(t.companies, nm, i);
      }
    }
  }

  /** A second run after a completed one changes nothing and completes,
      whichever saves would throw: nothing is pending any more. */
  lemma LocalSyncIdempotent(t: Tables, faulty: set<Id>, now: Time, faulty2: set<Id>, later: Time)
    requires LocalSyncSpec(t, faulty, now).1
    ensures LocalSyncSpec(LocalSyncSpec(t, faulty, now).0, faulty2, later)
            == (LocalSyncSpec(t, faulty, now).0, true)
  {
    var t' := LocalSyncSpec(t, faulty, now).0;
    NothingPendingAfter(t, faulty, now);
    var nc := ContactStop(t'.contacts, faulty2);
    assert nc == |t'.contacts|;
    ContactsQuietPrefix(t'.contacts, |t'.contacts|, later);
    assert t'.logs + [] == t'.logs;
    assert ContactsVisited(t', nc, later) == t';
    var nm := CompanyStop(t'.companies, faulty2);
    assert nm == |t'.companies|;
    CompaniesQuietPrefix(t'.companies, |t'.companies|, later);
    assert CompaniesVisited(t', nm, later) == t';
  }

  /** Marking keeps every contact in schema form and under the id bound. */
  lemma MarkedContactsInSchema(cs: seq<Contact>, n: nat, bound: Id)
    requires n <= |cs|
    requires forall i :: 0 <= i < |cs| ==> cs[i].id < bound && ContactInSchema(cs[i])
    ensures forall i :: 0 <= i < |cs| ==>
              MarkedContacts(cs, n)[i].id < bound && ContactInSchema(MarkedContacts(cs, n)[i])
  {
    forall i | 0 <= i < |cs|
      ensures MarkedContacts(cs, n)[i].id < bound && ContactInSchema(MarkedContacts(cs, n)[i])
    {
      MarkedContactsAt(cs, n, i);
    }
  }


  /** Marking keeps every company in schema form and under the id bound. */
  lemma MarkedCompaniesInSchema(cs: seq<Company>, n: nat, bound: Id)
    requires n <= |cs|
    requires forall i :: 0 <= i < |cs| ==> cs[i].id < bound && CompanyInSchema(cs[i])
    ensures forall i :: 0 <= i < |cs| ==>
              MarkedCompanies(cs, n)[i].id < bound && CompanyInSchema(MarkedCompanies(cs, n)[i])
  {
    forall i | 0 <= i < |cs|
      ensures MarkedCompanies(cs, n)[i].id < bound && CompanyInSchema(MarkedCompanies(cs, n)[i])
    {
      MarkedCompaniesAt(cs, n, i);
    }
  }


  /** The contact loop keeps the database well formed wherever it stops. */
  lemma ContactsVisitedWellFormed(t: Tables, n: nat, now: Time)
    requires WellFormed(t) && n <= |t.contacts|
    ensures WellFormed(ContactsVisited(t, n, now))
  {
    MarkedContactsInSchema(t.contacts, n, t.nextId);
  }

  /** The company loop keeps the database well formed wherever it stops. */
  lemma CompaniesVisitedWellFormed(t: Tables, n: nat, now: Time)
    requires WellFormed(t) && n <= |t.companies|
    ensures WellFormed(CompaniesVisited(t, n, now))
  {
    MarkedCompaniesInSchema(t.companies, n, t.nextId);
  }

  /** A run keeps the database well formed, whatever its outcome. */
  lemma LocalSyncWellFormed(t: Tables, faulty: set<Id>, now: Time)
    requires WellFormed(t)
    ensures WellFormed(LocalSyncSpec(t, faulty, now).0)
  {
    var nc := ContactStop(t.contacts, faulty);
    ContactsVisitedWellFormed(t, nc, now);
    if nc == |t.contacts| {
      var t1 := ContactsVisited(t, nc, now);
      CompaniesVisitedWellFormed(t1, CompanyStop(t1.companies, faulty), now);
    }
  }
}
