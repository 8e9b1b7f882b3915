/** The retry limit across handlers: the push pass only selects pending
    contacts whose `retryCount` is below the limit, and `retryCount` is reset
    only by a successful push. Editing a contact or keeping the local side of
    a contact conflict marks it `pending` again but keeps its count, so a
    contact that already reached the limit becomes pending and is never
    pushed again; one below the limit is picked up by the next pass. */
module RetryLimit {
  import opened Common
  import opened Models
  import opened Store
  import opened PushPass
  import ContactsController
  import ConflictsController

  /** A pending contact is attempted by the pass exactly when its count is
      below the limit; otherwise the pass leaves it as it is. */
  lemma PendingPushedIff(t: Tables, k: nat, contactReplies: nat -> PushReply, companyReplies: nat -> PushReply,
                         maxRetry: int, now: Time)
    requires k < |t.contacts| && t.contacts[k].syncStatus == Pending
    ensures ContactSelected(t.contacts[k], maxRetry) <==> t.contacts[k].retryCount < maxRetry
    ensures PushSpec(t, contactReplies, companyReplies, maxRetry, now).0.contacts[k]
            == if t.contacts[k].retryCount < maxRetry
               then PushedContact(t.contacts[k], contactReplies(k), maxRetry) else t.contacts[k]
  {
    PushOutcome(t, contactReplies, companyReplies, maxRetry, now);
  }

  /** After a successful update the contact is `pending` with its old retry
      count; the next pass pushes it exactly when that count is below the
      limit, and otherwise leaves it pending and untouched. */
  lemma UpdatedContactPushedIff(t: Tables, id: Id, input: ContactsController.ContactInput,
                                contactReplies: nat -> PushReply, companyReplies: nat -> PushReply,
                                maxRetry: int, now: Time)
    requires WellFormed(t) && FindContact(t.contacts, id).Some?
    requires ContactsController.KeepsRequired(input)
    ensures var k := FindContact(t.contacts, id).value;
            var t' := ContactsController.UpdateSpec(t, id, input).1;
            && k < |t'.contacts|
            && t'.contacts[k].syncStatus == Pending
            && t'.contacts[k].retryCount == t.contacts[k].retryCount
            && (ContactSelected(t'.contacts[k], maxRetry) <==> t.contacts[k].retryCount < maxRetry)
            && PushSpec(t', contactReplies, companyReplies, maxRetry, now).0.contacts[k]
               == if t.contacts[k].retryCount < maxRetry
                  then PushedContact(t'.contacts[k], contactReplies(k), maxRetry) else t'.contacts[k]
  {
    var k := FindContact(t.contacts, id).value;
    ContactsController.UpdateOutcome(t, id, input);
    var t' := ContactsController.UpdateSpec(t, id, input).1;
    PendingPushedIff(t', k, contactReplies, companyReplies, maxRetry, now);
  }

  /** Keeping the local side of an open contact conflict marks the contact
      `pending` with its old retry count (a `failed` contact included); the
      next pass pushes it exactly when that count is below the limit, and
      otherwise leaves it pending and untouched. */
  lemma KeptLocalPushedIff(t: Tables, k: nat, now: Time,
                           contactReplies: nat -> PushReply, companyReplies: nat -> PushReply, maxRetry: int)
    requires WellFormed(t) && k < |t.conflicts|
    requires FindContact(t.contacts, t.conflicts[k].entityId).Some?
    ensures var j := FindContact(t.contacts, t.conflicts[k].entityId).value;
            var (r, t') := ConflictsController.ResolveWithContact(t, k, "local", now);
            && r.Success? && j < |t'.contacts|
            && t'.contacts[j] == t.contacts[j].(syncStatus := Pending)
            && (ContactSelected(t'.contacts[j], maxRetry) <==> t.contacts[j].retryCount < maxRetry)
            && PushSpec(t', contactReplies, companyReplies, maxRetry, now).0.contacts[j]
               == if t.contacts[j].retryCount < maxRetry
                  then PushedContact(t'.contacts[j], contactReplies(j), maxRetry) else t'.contacts[j]
  {
    var j := FindContact(t.contacts, t.conflicts[k].entityId).value;
    ConflictsController.ResolveContact(t, k, "local", now);
    var t' := ConflictsController.ResolveWithContact(t, k, "local", now).1;
    PendingPushedIff(t', j, contactReplies, companyReplies, maxRetry, now);
  }
}
