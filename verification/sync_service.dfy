/** The poll-pass sync service (backend/src/services/syncService.js): its
    module state — the two pull watermarks, the single-flight flag, the
    cached status and the polling timer — and the operations that run over
    it: the status counts, the local-mode full sync, the pull pass with its
    watermarks, and starting and stopping the poll. The push pass needs no
    service state and is `PushPass.SyncLocalToHubSpot`. */
module SyncService {
  import opened Common
  import opened Text
  import opened Models
  import opened Store
  import opened Payloads
  import opened LocalSync
  import opened PushPass
  import opened PullPass

  /** `syncStats`: the counts of the last status query, the time of the last
      completed local sync and whether a run is in progress. */
  datatype SyncStats = SyncStats(
    lastSyncTime: Option<Time>,
    pendingContacts: nat,
    pendingCompanies: nat,
    failedContacts: nat,
    failedCompanies: nat,
    unresolvedConflicts: nat,
    isRunning: bool)

  /** The statistics before any query. */
  const InitialStats := SyncStats(None, 0, 0, 0, 0, 0, false)

  /** What `runFullSync` answers: a message, and the status unless a run was
      already in progress. */
  datatype FullSyncReply = FullSyncReply(message: string, status: Option<SyncStats>)

  const InProgressMessage := "Sync already in progress"

  predicate ContactFailed(c: Contact) {
    c.syncStatus == Failed
  }

  predicate CompanyFailed(c: Company) {
    c.syncStatus == Failed
  }

  predicate Unresolved(c: Conflict) {
    !c.resolved
  }

  /** `getSyncStatus`: the five counts taken afresh; the last sync time and
      the running flag are kept. */
  function Refreshed(t: Tables, s: SyncStats): SyncStats {
    s.(pendingContacts := Count(t.contacts, ContactPending),
       pendingCompanies := Count(t.companies, CompanyPending),
       failedContacts := Count(t.contacts, ContactFailed),
       failedCompanies := Count(t.companies, CompanyFailed),
       unresolvedConflicts := Count(t.conflicts, Unresolved))
  }

  /** The message of a completed local-mode run. */
  function CompletedMessage(contacts: nat, companies: nat): string {
    "Sync completed: " + NatText(contacts) + " contacts, " + NatText(companies) + " companies synced"
  }

  /** A local-mode run that was not already in progress, as a function of
      the database and the statistics: the database afterwards, the
      statistics afterwards and the reply. The last sync time moves only on
      success. The reply's status is the statistics object itself, so the
      `finally` block's reset of `isRunning` shows in it too. */
  function FullSyncSpec(t: Tables, s: SyncStats, faulty: set<Id>, errorMessage: string, now: Time)
    : (Tables, SyncStats, FullSyncReply)
  {
    var (t', ok) := LocalSyncSpec(t, faulty, now);
    var s1 := if ok then s.(lastSyncTime := Some(now)) else s;
    var s2 := Refreshed(t', s1.(isRunning := true)).(isRunning := false);
    var message :=
      if ok then CompletedMessage(Count(t.contacts, ContactPending), Count(t.companies, CompanyPending))
      else "Sync failed: " + errorMessage;
    (t', s2, FullSyncReply(message, Some(s2)))
  }

  /** `parseInt(process.env.SYNC_INTERVAL) || 300000`: `None` stands for a
      value that does not parse (`NaN`), and `0` falls back as well. */
  function PollInterval(configured: Option<int>): (ms: int)
    ensures ms != 0
    ensures configured.None? || configured.value == 0 ==> ms == 300000
    ensures configured.Some? && configured.value != 0 ==> ms == configured.value
  {
    match configured
    case Some(m) => if m != 0 then m else 300000
    case None => 300000
  }

  /** The two marking loops of `runFullSync`, with the number of pending
      records each `find` returned (companies are looked for only once the
      contact loop has finished). */
  method MarkAllPending(db: Database, faulty: set<Id>, now: Time)
    returns (ok: bool, contactsFound: nat, companiesFound: nat)
    requires db.Valid()
    modifies db
    ensures db.Valid()
    ensures (db.State(), ok) == LocalSyncSpec(old(db.State()), faulty, now)
    ensures ok ==> contactsFound == Count(old(db.contacts), ContactPending)
    ensures ok ==> companiesFound == Count(old(db.companies), CompanyPending)
  {
    contactsFound := Count(db.contacts, ContactPending);
    companiesFound := 0;
    ok := MarkPendingContacts(db, faulty, now);
    if ok {
      companiesFound := Count(db.companies, CompanyPending);
      ok := MarkPendingCompanies(db, faulty, now);
    }
  }

  /** The module state of the service around one database. */
  class SyncService {
    const db: Database
    var lastContactSync: Option<Time>
    var lastCompanySync: Option<Time>
    var isSyncing: bool
    var stats: SyncStats
    /** The handle of the polling timer, if one is set. */
    var syncInterval: Option<nat>

    ghost predicate Valid()
      reads this, db
    {
      db.Valid()
    }

    /** The service as the module is loaded: no watermarks, not syncing, no
        timer. */
    constructor (store: Database)
      requires store.Valid()
      ensures Valid() && db == store
      ensures lastContactSync == None && lastCompanySync == None
      ensures !isSyncing && stats == InitialStats && syncInterval == None
    {
      db := store;
      lastContactSync, lastCompanySync := None, None;
      isSyncing := false;
      stats := InitialStats;
      syncInterval := None;
    }

    /** `getSyncStatus`: refreshes the cached counts and returns them. */
    method GetSyncStatus() returns (r: SyncStats)
      modifies this
      ensures stats == Refreshed(db.State(), old(stats)) && r == stats
      ensures lastContactSync == old(lastContactSync) && lastCompanySync == old(lastCompanySync)
      ensures isSyncing == old(isSyncing) && syncInterval == old(syncInterval)
    {
      stats := Refreshed(db.State(), stats);
      r := stats;
    }

    /** `runFullSync` in local mode. A call made while a run is in progress
        answers at once and changes nothing; any other call marks the
        pending records (stopping at the first save that throws, with
        `errorMessage`), refreshes the statistics and clears the flags. */
    method RunFullSync(faulty: set<Id>, errorMessage: string, now: Time) returns (r: FullSyncReply)
      requires Valid()
      modifies this, db
      ensures Valid()
      ensures old(isSyncing) ==> r == FullSyncReply(InProgressMessage, None)
      ensures old(isSyncing) ==> db.State() == old(db.State()) && isSyncing && stats == old(stats)
      ensures !old(isSyncing) ==> (db.State(), stats, r) == FullSyncSpec(old(db.State()), old(stats), faulty, errorMessage, now)
      ensures !old(isSyncing) ==> !isSyncing && !stats.isRunning
      ensures lastContactSync == old(lastContactSync) && lastCompanySync == old(lastCompanySync)
      ensures syncInterval == old(syncInterval)
    {
      if isSyncing {
        r := FullSyncReply(InProgressMessage, None);
        return;
      }
      isSyncing := true;
      stats := stats.(isRunning := true);
      var ok, contactsFound, companiesFound := MarkAllPending(db, faulty, now);
      var message;
      if ok {
        stats := stats.(lastSyncTime := Some(now));
        message := CompletedMessage(contactsFound, companiesFound);
      } else {
        message := "Sync failed: " + errorMessage;
      }
      var status := GetSyncStatus();
      isSyncing := false;
      stats := stats.(isRunning := false);
      // `status` and `syncStats` are one object: the reset above shows in it.
      r := FullSyncReply(message, Some(stats));
    }

    /** `syncHubSpotToLocal`: fetches the contacts modified since the contact
        watermark and pulls them, then the same for companies; the
        watermarks move to `now` only once both loops are done. A fetch
        that fails (`None`) rejects the call there. */
    method SyncHubSpotToLocal(contactsFetch: Option<seq<RemoteRecord>>,
                              companiesFetch: Option<seq<RemoteRecord>>, now: Time)
      returns (contactQuery: SearchRequest, companyQuery: Option<SearchRequest>, ok: bool)
      requires Valid()
      modifies this, db
      ensures Valid()
      ensures old(lastContactSync).None? ==> contactQuery.filterGroups == []
      ensures old(lastContactSync).Some? ==>
                contactQuery.filterGroups == [[Filter("lastmodifieddate", GTE, old(lastContactSync).value)]]
      ensures companyQuery.Some? <==> contactsFetch.Some?
      ensures companyQuery.Some? && old(lastCompanySync).None? ==> companyQuery.value.filterGroups == []
      ensures companyQuery.Some? && old(lastCompanySync).Some? ==>
                companyQuery.value.filterGroups == [[Filter("hs_lastmodifieddate", GTE, old(lastCompanySync).value)]]
      ensures ok <==> contactsFetch.Some? && companiesFetch.Some?
      ensures contactsFetch.None? ==> db.State() == old(db.State())
      ensures contactsFetch.Some? && companiesFetch.None? ==>
                db.State() == PulledContacts(old(db.State()), contactsFetch.value, |contactsFetch.value|, old(lastContactSync), now)
      ensures ok ==>
                db.State() == PulledCompanies(
                  PulledContacts(old(db.State()), contactsFetch.value, |contactsFetch.value|, old(lastContactSync), now),
                  companiesFetch.value, |companiesFetch.value|, old(lastCompanySync), now)
      ensures ok ==> lastContactSync == Some(now) && lastCompanySync == Some(now)
      ensures !ok ==> lastContactSync == old(lastContactSync) && lastCompanySync == old(lastCompanySync)
      ensures isSyncing == old(isSyncing) && stats == old(stats) && syncInterval == old(syncInterval)
    {
      contactQuery := RecentlyModifiedContactsQuery(lastContactSync);
      companyQuery := None;
      ok := false;
      if contactsFetch.None? {
        return;
      }
      PullContacts(db, contactsFetch.value, lastContactSync, now);
      var q := RecentlyModifiedCompaniesQuery(lastCompanySync);
      companyQuery := Some(q);
      if companiesFetch.None? {
        return;
      }
      PullCompanies(db, companiesFetch.value, lastCompanySync, now);
      lastContactSync := Some(now);
      lastCompanySync := Some(now);
      ok := true;
    }

    /** `startPolling`: sets the timer (its handle, which `setInterval`
        returns, is given) to run the full sync every `intervalMs`, and
        returns the handle. A timer set before is not cleared. */
    method StartPolling(configured: Option<int>, handle: nat) returns (h: nat, intervalMs: int)
      modifies this
      ensures h == handle && intervalMs == PollInterval(configured) && syncInterval == Some(handle)
      ensures lastContactSync == old(lastContactSync) && lastCompanySync == old(lastCompanySync)
      ensures isSyncing == old(isSyncing) && stats == old(stats)
    {
      intervalMs := PollInterval(configured);
      syncInterval := Some(handle);
      h := handle;
    }

    /** `stopPolling`: clears the timer, if any; `cleared` is the handle
        passed to `clearInterval`. */
    method StopPolling() returns (cleared: Option<nat>)
      modifies this
      ensures cleared == old(syncInterval) && syncInterval == None
      ensures lastContactSync == old(lastContactSync) && lastCompanySync == old(lastCompanySync)
      ensures isSyncing == old(isSyncing) && stats == old(stats)
    {
      cleared := syncInterval;
      if syncInterval.Some? {
        syncInterval := None;
      }
    }
  }

  // ---------------------------------------------------------------------
  // Properties of the status counts and the local-mode run

  /** Two sequences that agree, position by position, on `p` have the same
      count. */
  lemma {:induction false} CountPointwise<T>(s: seq<T>, s': seq<T>, p: T -> bool)
    requires |s| == |s'|
    requires forall i :: 0 <= i < |s| ==> p(s[i]) == p(s'[i])
    ensures Count(s, p) == Count(s', p)
    decreases |s|
  {
    if |s| > 0 {
      CountPointwise(s[..|s| - 1], s'[..|s'| - 1], p);
    }
  }

  /** A completed run reports in its message how many contacts and
      companies it marked, which is how many entries it logged; the status
      it returns then shows nothing pending, the failed counts and the open
      conflicts as they were, the new last sync time and no run in
      progress. */
  lemma FullSyncCompleted(t: Tables, s: SyncStats, faulty: set<Id>, errorMessage: string, now: Time)
    requires LocalSyncSpec(t, faulty, now).1
    ensures FullSyncSpec(t, s, faulty, errorMessage, now).2.message
            == CompletedMessage(Count(t.contacts, ContactPending), Count(t.companies, CompanyPending))
    ensures |FullSyncSpec(t, s, faulty, errorMessage, now).0.logs|
            == |t.logs| + Count(t.contacts, ContactPending) + Count(t.companies, CompanyPending)
    ensures FullSyncSpec(t, s, faulty, errorMessage, now).2.status
            == Some(SyncStats(Some(now), 0, 0, Count(t.contacts, ContactFailed), Count(t.companies, CompanyFailed),
                              Count(t.conflicts, Unresolved), false))
  {
    var t' := LocalSyncSpec(t, faulty, now).0;
    LocalSyncMarksPending(t, faulty, now);
    LocalSyncCompletes(t, faulty, now);
    NothingPendingAfter(t, faulty, now);
    assert Count(t'.contacts, ContactPending) == 0;
    assert Count(t'.companies, CompanyPending) == 0;
    forall i | 0 <= i < |t.contacts| ensures ContactFailed(t.contacts[i]) == ContactFailed(t'.contacts[i]) {
    }
    CountPointwise(t.contacts, t'.contacts, ContactFailed);
    forall i | 0 <= i < |t.companies| ensures CompanyFailed(t.companies[i]) == CompanyFailed(t'.companies[i]) {
    }
    CountPointwise(t.companies, t'.companies, CompanyFailed);
  }

  /** A run stopped by a save that throws reports the error, keeps the last
      sync time, clears the running flag, and leaves at least one record
      pending: the one whose save threw. */
  lemma FullSyncFailed(t: Tables, s: SyncStats, faulty: set<Id>, errorMessage: string, now: Time)
    requires !LocalSyncSpec(t, faulty, now).1
    ensures FullSyncSpec(t, s, faulty, errorMessage, now).2.message == "Sync failed: " + errorMessage
    ensures FullSyncSpec(t, s, faulty, errorMessage, now).1.lastSyncTime == s.lastSyncTime
    ensures !FullSyncSpec(t, s, faulty, errorMessage, now).1.isRunning
    ensures FullSyncSpec(t, s, faulty, errorMessage, now).1.pendingContacts
            + FullSyncSpec(t, s, faulty, errorMessage, now).1.pendingCompanies > 0
  {
    var t' := LocalSyncSpec(t, faulty, now).0;
    LocalSyncCompletes(t, faulty, now);
    LocalSyncRecordFate(t, faulty, now);
    if i :| 0 <= i < |t.contacts| && ContactFails(t.contacts, i, faulty) {
      assert ContactPending(t'.contacts[i]);
    } else {
      var i :| 0 <= i < |t.companies| && CompanyFails(t.companies, i, faulty);
      assert CompanyPending(t'.companies[i]);
    }
  }

  /** Right after a completed run, another run changes no record, writes no
      log entry and reports zero contacts and zero companies, whichever
      saves would throw. */
  lemma FullSyncTwice(t: Tables, s: SyncStats, faulty: set<Id>, errorMessage: string, now: Time,
                      faulty2: set<Id>, later: Time)
    requires LocalSyncSpec(t, faulty, now).1
    ensures FullSyncSpec(FullSyncSpec(t, s, faulty, errorMessage, now).0, FullSyncSpec(t, s, faulty, errorMessage, now).1,
                         faulty2, errorMessage, later).0
            == FullSyncSpec(t, s, faulty, errorMessage, now).0
    ensures FullSyncSpec(FullSyncSpec(t, s, faulty, errorMessage, now).0, FullSyncSpec(t, s, faulty, errorMessage, now).1,
                         faulty2, errorMessage, later).2.message
            == CompletedMessage(0, 0)
  {
    var t1 := LocalSyncSpec(t, faulty, now).0;
    var s1 := FullSyncSpec(t, s, faulty, errorMessage, now).1;
    assert FullSyncSpec(t, s, faulty, errorMessage, now).0 == t1;
    LocalSyncIdempotent(t, faulty, now, faulty2, later);
    NothingPendingAfter(t, faulty, now);
    assert Count(t1.contacts, ContactPending) == 0;
    assert Count(t1.companies, CompanyPending) == 0;
  }
}
