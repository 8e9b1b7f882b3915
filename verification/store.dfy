/** The local Mongo database of the poll-pass engine: the Contact, Company,
    Conflict and SyncLog collections, each kept in insertion order, and the
    id generator. Every write goes through a schema `save`, so every stored
    contact and company is in schema form. */
module Store {
  import opened Common
  import opened Text
  import opened Models

  /** The value of the whole database at one moment. */
  datatype Tables = Tables(
    contacts: seq<Contact>,
    companies: seq<Company>,
    conflicts: seq<Conflict>,
    logs: seq<SyncLog>,
    nextId: Id)

  /** Every id is below the generator, and every stored contact and company
      passed schema validation. */
  predicate WellFormed(t: Tables) {
    && (forall i :: 0 <= i < |t.contacts| ==> t.contacts[i].id < t.nextId && ContactInSchema(t.contacts[i]))
    && (forall i :: 0 <= i < |t.companies| ==> t.companies[i].id < t.nextId && CompanyInSchema(t.companies[i]))
    && (forall i :: 0 <= i < |t.conflicts| ==> t.conflicts[i].id < t.nextId)
  }

  /** `Contact.findById(id)`. */
  function FindContact(cs: seq<Contact>, id: Id): (r: Option<nat>)
    ensures r.Some? ==> r.value < |cs| && cs[r.value].id == id
    ensures r.None? ==> forall j :: 0 <= j < |cs| ==> cs[j].id != id
  {
    FirstIndex(cs, (c: Contact) => c.id == id)
  }

  /** `Company.findById(id)`. */
  function FindCompany(cs: seq<Company>, id: Id): (r: Option<nat>)
    ensures r.Some? ==> r.value < |cs| && cs[r.value].id == id
    ensures r.None? ==> forall j :: 0 <= j < |cs| ==> cs[j].id != id
  {
    FirstIndex(cs, (c: Company) => c.id == id)
  }

  /** `Conflict.findById(id)`. */
  function FindConflict(cs: seq<Conflict>, id: Id): (r: Option<nat>)
    ensures r.Some? ==> r.value < |cs| && cs[r.value].id == id
    ensures r.None? ==> forall j :: 0 <= j < |cs| ==> cs[j].id != id
  {
    FirstIndex(cs, (c: Conflict) => c.id == id)
  }

  /** `Contact.findOne({ email })`: Mongoose casts the filter value through
      the e-mail setters (trim, lowercase) before comparing. */
  function FindContactByEmail(cs: seq<Contact>, email: string): (r: Option<nat>)
    ensures r.Some? ==> r.value < |cs| && cs[r.value].email == ToLower(Trim(email))
    ensures r.None? ==> forall j :: 0 <= j < |cs| ==> cs[j].email != ToLower(Trim(email))
  {
    var key := ToLower(Trim(email));
    FirstIndex(cs, (c: Contact) => c.email == key)
  }

  /** `Company.findOne({ domain })`: the filter value is cast through the
      domain setter (trim). */
  function FindCompanyByDomain(cs: seq<Company>, domain: string): (r: Option<nat>)
    ensures r.Some? ==> r.value < |cs| && cs[r.value].domain == Trim(domain)
    ensures r.None? ==> forall j :: 0 <= j < |cs| ==> cs[j].domain != Trim(domain)
  {
    var key := Trim(domain);
    FirstIndex(cs, (c: Company) => c.domain == key)
  }

  /** `Contact.findOne({ externalId })`. */
  function FindContactByExternalId(cs: seq<Contact>, ext: string): (r: Option<nat>)
    ensures r.Some? ==> r.value < |cs| && cs[r.value].externalId == Some(ext)
    ensures r.None? ==> forall j :: 0 <= j < |cs| ==> cs[j].externalId != Some(ext)
  {
    FirstIndex(cs, (c: Contact) => c.externalId == Some(ext))
  }

  /** `Company.findOne({ externalId })`. */
  function FindCompanyByExternalId(cs: seq<Company>, ext: string): (r: Option<nat>)
    ensures r.Some? ==> r.value < |cs| && cs[r.value].externalId == Some(ext)
    ensures r.None? ==> forall j :: 0 <= j < |cs| ==> cs[j].externalId != Some(ext)
  {
    FirstIndex(cs, (c: Company) => c.externalId == Some(ext))
  }

  /** Saving a conflict in place leaves `findById` on its id pointing at the
      same position. */
  lemma FindConflictAfterStore(cs: seq<Conflict>, id: Id, k: nat, d: Conflict)
    requires FindConflict(cs, id) == Some(k) && d.id == id
    ensures FindConflict(cs[k := d], id) == Some(k)
  {
    var p := (c: Conflict) => c.id == id;
    assert FindConflict(cs, id) == FirstIndex(cs, p);
    var r := FirstIndex(cs[k := d], p);
    assert FindConflict(cs[k := d], id) == r;
    assert p(cs[k := d][k]);
  }

  /** Appending a contact in schema form under the next id keeps the
      database well formed. */
  lemma AppendContactWellFormed(t: Tables, c: Contact)
    requires WellFormed(t) && ContactInSchema(c) && c.id == t.nextId
    ensures WellFormed(t.(contacts := t.contacts + [c], nextId := t.nextId + 1))
  {
  }

  class Database {
    var contacts: seq<Contact>
    var companies: seq<Company>
    var conflicts: seq<Conflict>
    var logs: seq<SyncLog>
    var nextId: Id

    function State(): Tables
      reads this
    {
      Tables(contacts, companies, conflicts, logs, nextId)
    }

    ghost predicate Valid()
      reads this
    {
      WellFormed(State())
    }

    /** An empty database. */
    constructor ()
      ensures Valid()
      ensures State() == Tables([], [], [], [], 0)
    {
      contacts, companies, conflicts, logs, nextId := [], [], [], [], 0;
    }

    /** Appending a validated contact with the next id keeps the store well
        formed. */
    method AppendContact(c: Contact)
      requires Valid() && ContactInSchema(c) && c.id == nextId
      modifies this
      ensures Valid()
      ensures State() == old(State()).(contacts := old(contacts) + [c], nextId := old(nextId) + 1)
    {
      contacts := contacts + [c];
      nextId := nextId + 1;
    }

    /** Replacing a stored contact by a validated one with the same id keeps
        the store well formed. */
    method PutContact(k: nat, c: Contact)
      requires Valid() && k < |contacts| && ContactInSchema(c) && c.id == contacts[k].id
      modifies this
      ensures Valid()
      ensures State() == old(State()).(contacts := old(contacts)[k := c])
    {
      contacts := contacts[k := c];
    }

    method AppendCompany(c: Company)
      requires Valid() && CompanyInSchema(c) && c.id == nextId
      modifies this
      ensures Valid()
      ensures State() == old(State()).(companies := old(companies) + [c], nextId := old(nextId) + 1)
    {
      companies := companies + [c];
      nextId := nextId + 1;
    }

    method PutCompany(k: nat, c: Company)
      requires Valid() && k < |companies| && CompanyInSchema(c) && c.id == companies[k].id
      modifies this
      ensures Valid()
      ensures State() == old(State()).(companies := old(companies)[k := c])
    {
      companies := companies[k := c];
    }

    /** `new Contact(fields).save()`: the document gets the next id, passes
        through the schema setters and validators, and is appended when it is
        valid; nothing changes when validation fails. */
    method InsertContact(c: Contact) returns (saved: Option<Contact>)
      requires Valid()
      modifies this
      ensures Valid()
      ensures saved == SaveContact(c.(id := old(nextId)))
      ensures saved.None? ==> State() == old(State())
      ensures saved.Some? ==> State() == old(State()).(contacts := old(contacts) + [saved.value],
                                                     nextId := old(nextId) + 1)
    {
      saved := SaveContact(c.(id := nextId));
      if saved.Some? {
        AppendContact(saved.value);
      }
    }

    /** `contact.save()` on the document at position `k`: the stored document
        is replaced by the validated one, or nothing changes. */
    method StoreContact(k: nat, c: Contact) returns (saved: Option<Contact>)
      requires Valid() && k < |contacts| && c.id == contacts[k].id
      modifies this
      ensures Valid()
      ensures saved == SaveContact(c)
      ensures saved.None? ==> State() == old(State())
      ensures saved.Some? ==> State() == old(State()).(contacts := old(contacts)[k := saved.value])
    {
      saved := SaveContact(c);
      if saved.Some? {
        PutContact(k, saved.value);
      }
    }

    /** `new Company(fields).save()`. */
    method InsertCompany(c: Company) returns (saved: Option<Company>)
      requires Valid()
      modifies this
      ensures Valid()
      ensures saved == SaveCompany(c.(id := old(nextId)))
      ensures saved.None? ==> State() == old(State())
      ensures saved.Some? ==> State() == old(State()).(companies := old(companies) + [saved.value],
                                                     nextId := old(nextId) + 1)
    {
      saved := SaveCompany(c.(id := nextId));
      if saved.Some? {
        AppendCompany(saved.value);
      }
    }

    /** `company.save()` on the document at position `k`. */
    method StoreCompany(k: nat, c: Company) returns (saved: Option<Company>)
      requires Valid() && k < |companies| && c.id == companies[k].id
      modifies this
      ensures Valid()
      ensures saved == SaveCompany(c)
      ensures saved.None? ==> State() == old(State())
      ensures saved.Some? ==> State() == old(State()).(companies := old(companies)[k := saved.value])
    {
      saved := SaveCompany(c);
      if saved.Some? {
        PutCompany(k, saved.value);
      }
    }

    /** `Conflict.create(fields)`: every required field is present, so the
        insert always succeeds; the new conflict gets the next id. */
    method InsertConflict(c: Conflict) returns (stored: Conflict)
      requires Valid()
      modifies this
      ensures Valid()
      ensures stored == c.(id := old(nextId))
      ensures State() == old(State()).(conflicts := old(conflicts) + [stored], nextId := old(nextId) + 1)
    {
      stored := c.(id := nextId);
      conflicts := conflicts + [stored];
      nextId := nextId + 1;
    }

    /** `conflict.save()` on the conflict at position `k`. */
    method StoreConflict(k: nat, c: Conflict)
      requires Valid() && k < |conflicts| && c.id == conflicts[k].id
      modifies this
      ensures Valid()
      ensures State() == old(State()).(conflicts := old(conflicts)[k := c])
    {
      conflicts := conflicts[k := c];
    }

    /** `SyncLog.create(...)`: appended when validation accepts it. */
    method AppendLog(entry: Option<SyncLog>)
      requires Valid()
      modifies this
      ensures Valid()
      ensures entry.None? ==> State() == old(State())
      ensures entry.Some? ==> State() == old(State()).(logs := old(logs) + [entry.value])
    {
      if entry.Some? {
        logs := logs + [entry.value];
      }
    }
  }
}
