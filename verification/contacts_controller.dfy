/** The contact write path of the poll-pass engine
    (backend/src/controllers/contactsController.js): create with validation,
    normalisation and an e-mail uniqueness check, field-wise update that always
    marks the record `pending`, and delete.

    Each handler is specified by a function from the database before the
    request to the reply and the database after it; the methods perform the
    same steps on a `Database` object and are proved to match. */
module ContactsController {
  import opened Common
  import opened Text
  import opened Models
  import opened Store

  /** A request body; a missing key is None. */
  datatype ContactInput = ContactInput(
    name: Option<string>,
    email: Option<string>,
    phone: Option<string>,
    company: Option<string>)

  /** `!x || !x.trim()`. */
  predicate Blank(o: Option<string>) {
    !Present(o) || Trim(o.value) == ""
  }

  /** `x ? x.trim() : ''`. */
  function TrimmedOrEmpty(o: Option<string>): (r: string)
    ensures Present(o) ==> r == Trim(o.value)
    ensures !Present(o) ==> r == ""
    ensures IsTrimmed(r)
  {
    TrimmedEnds(o.GetOr(""));
    if Present(o) then Trim(o.value) else ""
  }

  /** The document the create handler builds from a validated body. */
  function Normalised(id: Id, input: ContactInput, now: Time): (c: Contact)
    requires !Blank(input.name) && !Blank(input.email)
    ensures ContactInSchema(c)
    ensures c.id == id && c.name == Trim(input.name.value)
    ensures c.email == ToLower(Trim(input.email.value))
    ensures c.phone == TrimmedOrEmpty(input.phone) && c.company == TrimmedOrEmpty(input.company)
    ensures c.externalId == None && c.lastModified == now && c.syncStatus == Pending && c.retryCount == 0
  {
    TrimmedEnds(input.name.value);
    LowerTrimShape(input.email.value);
    var c := NewContact(id, Trim(input.name.value), ToLower(Trim(input.email.value)), now);
    c.(phone := TrimmedOrEmpty(input.phone), company := TrimmedOrEmpty(input.company))
  }

  // ---------------------------------------------------------------------
  // POST /api/contacts

  /** The create handler as a function of the database. */
  function CreateSpec(t: Tables, input: ContactInput, now: Time): (Reply<Contact>, Tables) {
    if Blank(input.name) then (Failure(400, "Name is required"), t)
    else if Blank(input.email) then (Failure(400, "Email is required"), t)
    else if FindContactByEmail(t.contacts, ToLower(input.email.value)).Some? then
      (Failure(400, "Contact with this email already exists"), t)
    else
      match SaveContact(Normalised(t.nextId, input, now))
      case None => (Failure(500, "Failed to create contact"), t)
      case Some(c) => (Success(201, c), t.(contacts := t.contacts + [c], nextId := t.nextId + 1))
  }

  /** A create succeeds exactly when name and e-mail are given and no stored
      contact has the e-mail; a failed create changes nothing, and a
      successful one appends the normalised contact under a fresh id. */
  lemma CreateOutcome(t: Tables, input: ContactInput, now: Time)
    ensures var (r, t') := CreateSpec(t, input, now);
            && (r.Success? <==> !Blank(input.name) && !Blank(input.email)
                                && FindContactByEmail(t.contacts, ToLower(input.email.value)).None?)
            && (r.Failure? ==> r.code == 400 && t' == t)
            && (r.Success? ==> r.code == 201 && r.body == Normalised(t.nextId, input, now)
                               && t' == t.(contacts := t.contacts + [r.body], nextId := t.nextId + 1))
  {
    if !Blank(input.name) && !Blank(input.email) {
      SaveNormalContact(Normalised(t.nextId, input, now));
    }
  }

  /** The duplicate check compares the stored normal form: a created contact
      never shares its e-mail with a contact stored before. */
  lemma CreateUniqueEmail(t: Tables, input: ContactInput, now: Time)
    ensures var (r, _) := CreateSpec(t, input, now);
            r.Success? ==> forall j :: 0 <= j < |t.contacts| ==> t.contacts[j].email != r.body.email
  {
    if !Blank(input.name) && !Blank(input.email) {
      LowerThenNormal(input.email.value);
      SaveNormalContact(Normalised(t.nextId, input, now));
    }
  }

  /** Creating keeps the database well formed. */
  lemma CreateWellFormed(t: Tables, input: ContactInput, now: Time)
    requires WellFormed(t)
    ensures WellFormed(CreateSpec(t, input, now).1)
  {
    if !Blank(input.name) && !Blank(input.email) && FindContactByEmail(t.contacts, ToLower(input.email.value)).None? {
      AppendContactWellFormed(t, Normalised(t.nextId, input, now));
    }
  }

  /** `Contact.create` on a validated body: the normalised document is
      stored under the next id. */
  method InsertNormalised(db: Database, input: ContactInput, now: Time) returns (r: Reply<Contact>)
    requires db.Valid() && !Blank(input.name) && !Blank(input.email)
    modifies db
    ensures db.Valid()
    ensures r == Success(201, Normalised(old(db.nextId), input, now))
    ensures db.State() == old(db.State()).(contacts := old(db.contacts) + [r.body], nextId := old(db.nextId) + 1)
  {
    var c := Normalised(db.nextId, input, now);
    assert c.(id := db.nextId) == c;
    var saved := db.InsertContact(c);
    r := if saved.Some? then Success(201, saved.value) else Failure(500, "Failed to create contact");
  }

  method CreateContact(db: Database, input: ContactInput, now: Time) returns (r: Reply<Contact>)
    requires db.Valid()
    modifies db
    ensures db.Valid()
    ensures (r, db.State()) == CreateSpec(old(db.State()), input, now)
  {
    if Blank(input.name) {
      return Failure(400, "Name is required");
    }
    if Blank(input.email) {
      return Failure(400, "Email is required");
    }
    var existing := FindContactByEmail(db.contacts, ToLower(input.email.value));
    if existing.Some? {
      return Failure(400, "Contact with this email already exists");
    }
    r := InsertNormalised(db, input, now);
  }

  // ---------------------------------------------------------------------
  // PUT /api/contacts/:id

  /** The fields the update handler assigns, applied to the stored contact `c`. */
  function Edited(c: Contact, input: ContactInput): (e: Contact)
    ensures e.id == c.id && e.lastModified == c.lastModified
    ensures e.retryCount == c.retryCount && e.externalId == c.externalId
    ensures e.syncStatus == Pending
    ensures e.name == (if Present(input.name) then Trim(input.name.value) else c.name)
    ensures e.email == (if Present(input.email) then ToLower(Trim(input.email.value)) else c.email)
    ensures e.phone == (if input.phone.Some? then Trim(input.phone.value) else c.phone)
    ensures e.company == (if input.company.Some? then Trim(input.company.value) else c.company)
  {
    c.(name := if Present(input.name) then Trim(input.name.value) else c.name,
       email := if Present(input.email) then ToLower(Trim(input.email.value)) else c.email,
       phone := if input.phone.Some? then Trim(input.phone.value) else c.phone,
       company := if input.company.Some? then Trim(input.company.value) else c.company,
       syncStatus := Pending)
  }

  /** The update keeps the required name and e-mail: neither is supplied as
      a string that trims to nothing. */
  predicate KeepsRequired(input: ContactInput) {
    !(Present(input.name) && Trim(input.name.value) == "")
    && !(Present(input.email) && Trim(input.email.value) == "")
  }

  /** Editing a stored contact keeps every field in setter normal form. */
  lemma EditedNormal(c: Contact, input: ContactInput)
    requires ContactInSchema(c)
    ensures var e := Edited(c, input);
            IsTrimmed(e.name) && IsTrimmed(e.email) && IsLower(e.email)
            && IsTrimmed(e.phone) && IsTrimmed(e.company)
  {
    TrimmedField(c.name, input.name, Present(input.name));
    LowerField(c.email, input.email, Present(input.email));
    TrimmedField(c.phone, input.phone, input.phone.Some?);
    TrimmedField(c.company, input.company, input.company.Some?);
  }

  /** The edited name and e-mail are non-empty exactly when the update keeps
      them. */
  lemma EditedRequired(c: Contact, input: ContactInput)
    requires c.name != "" && c.email != ""
    ensures var e := Edited(c, input); e.name != "" && e.email != "" <==> KeepsRequired(input)
  {
    var e := Edited(c, input);
    assert |e.email| == 0 <==> Present(input.email) && Trim(input.email.value) == "";
  }

  /** Editing a stored contact yields a document the setters leave alone; it
      fails validation exactly when a supplied name or e-mail trims to
      nothing. */
  lemma EditedSaves(c: Contact, input: ContactInput)
    requires ContactInSchema(c)
    ensures SaveContact(Edited(c, input)) ==
              if KeepsRequired(input) then Some(Edited(c, input)) else None
  {
    EditedNormal(c, input);
    EditedRequired(c, input);
    SaveNormalContact(Edited(c, input));
  }

  /** The update handler as a function of the database. */
  function UpdateSpec(t: Tables, id: Id, input: ContactInput): (Reply<Contact>, Tables) {
    match FindContact(t.contacts, id)
    case None => (Failure(404, "Contact not found"), t)
    case Some(k) =>
      match SaveContact(Edited(t.contacts[k], input))
      case None => (Failure(500, "Failed to update contact"), t)
      case Some(c) => (Success(200, c), t.(contacts := t.contacts[k := c]))
  }

  /** An update of a missing contact is a 404; otherwise it succeeds exactly
      when it keeps the required fields, and then replaces the stored contact
      by the edited one, marked `pending`, with `lastModified`, `retryCount`
      and `externalId` untouched. A failed update changes nothing. */
  lemma UpdateOutcome(t: Tables, id: Id, input: ContactInput)
    requires WellFormed(t)
    ensures var (r, t') := UpdateSpec(t, id, input);
            && (FindContact(t.contacts, id).None? ==> r == Failure(404, "Contact not found"))
            && (r.Failure? ==> t' == t)
            && (FindContact(t.contacts, id).Some? ==>
                  var k := FindContact(t.contacts, id).value;
                  && (r.Success? <==> KeepsRequired(input))
                  && (r.Failure? ==> r == Failure(500, "Failed to update contact"))
                  && (r.Success? ==> r.code == 200 && r.body == Edited(t.contacts[k], input)
                                     && t' == t.(contacts := t.contacts[k := r.body])))
  {
    var found := FindContact(t.contacts, id);
    if found.Some? {
      EditedSaves(t.contacts[found.value], input);
    }
  }

  /** Updating keeps the database well formed. */
  lemma UpdateWellFormed(t: Tables, id: Id, input: ContactInput)
    requires WellFormed(t)
    ensures WellFormed(UpdateSpec(t, id, input).1)
  {
    var found := FindContact(t.contacts, id);
    if found.Some? {
      EditedSaves(t.contacts[found.value], input);
    }
  }

  method UpdateContact(db: Database, id: Id, input: ContactInput) returns (r: Reply<Contact>)
    requires db.Valid()
    modifies db
    ensures db.Valid()
    ensures (r, db.State()) == UpdateSpec(old(db.State()), id, input)
  {
    var found := FindContact(db.contacts, id);
    if found.None? {
      return Failure(404, "Contact not found");
    }
    var k := found.value;
    var saved := db.StoreContact(k, Edited(db.contacts[k], input));
    if saved.None? {
      return Failure(500, "Failed to update contact");
    }
    r := Success(200, saved.value);
  }

  // ---------------------------------------------------------------------
  // DELETE /api/contacts/:id

  /** The delete handler as a function of the database. */
  function DeleteSpec(t: Tables, id: Id): (Reply<()>, Tables) {
    match FindContact(t.contacts, id)
    case None => (Failure(404, "Contact not found"), t)
    case Some(k) => (Success(200, ()), t.(contacts := t.contacts[..k] + t.contacts[k + 1..]))
  }

  /** A delete removes exactly the first contact with the id and keeps every
      other contact, in their order: those before it stay where they were and
      those after it move up by one. Deleting a missing id is a 404 and
      changes nothing; the id counter is never touched. */
  lemma DeleteOutcome(t: Tables, id: Id)
    ensures var (r, t') := DeleteSpec(t, id);
            && (r.Success? <==> exists j :: 0 <= j < |t.contacts| && t.contacts[j].id == id)
            && (r.Failure? ==> r == Failure(404, "Contact not found") && t' == t)
            && t'.nextId == t.nextId
            && t'.companies == t.companies && t'.conflicts == t.conflicts && t'.logs == t.logs
    ensures var (r, t') := DeleteSpec(t, id);
            r.Success? ==> |t'.contacts| + 1 == |t.contacts|
    ensures var (r, t') := DeleteSpec(t, id);
            r.Success? ==> exists k :: DeletedAt(t.contacts, t'.contacts, id, k)
    ensures var (r, t') := DeleteSpec(t, id);
            r.Success? ==> multiset(t'.contacts) + multiset{t.contacts[FindContact(t.contacts, id).value]}
                             == multiset(t.contacts)
  {
    var found := FindContact(t.contacts, id);
    if found.Some? {
      var k := found.value;
      var rest := t.contacts[..k] + t.contacts[k + 1..];
      assert t.contacts == t.contacts[..k] + [t.contacts[k]] + t.contacts[k + 1..];
      FirstContactWithId(t.contacts, id);
      assert DeletedAt(t.contacts, rest, id, k);
    }
  }

  /** `after` is `before` without the element at `k`, which is the first
      contact there with the id: earlier contacts keep their positions and
      later ones move up by one. */
  ghost predicate DeletedAt(before: seq<Contact>, after: seq<Contact>, id: Id, k: nat) {
    && k < |before| && |after| + 1 == |before|
    && before[k].id == id
    && (forall j :: 0 <= j < k ==> before[j].id != id && after[j] == before[j])
    && (forall j :: k <= j < |after| ==> after[j] == before[j + 1])
  }

  /** `findById` finds the first contact with the id. */
  lemma FirstContactWithId(cs: seq<Contact>, id: Id)
    requires FindContact(cs, id).Some?
    ensures forall j :: 0 <= j < FindContact(cs, id).value ==> cs[j].id != id
  {
    assert FindContact(cs, id) == FirstIndex(cs, (c: Contact) => c.id == id);
  }

  /** Deleting keeps the database well formed. */
  lemma DeleteWellFormed(t: Tables, id: Id)
    requires WellFormed(t)
    ensures WellFormed(DeleteSpec(t, id).1)
  {
    var found := FindContact(t.contacts, id);
    if found.Some? {
      var k := found.value;
      var rest := t.contacts[..k] + t.contacts[k + 1..];
      forall i | 0 <= i < |rest|
        ensures rest[i].id < t.nextId && ContactInSchema(rest[i])
      {
        if i < k { assert rest[i] == t.contacts[i]; } else { assert rest[i] == t.contacts[i + 1]; }
      }
    }
  }

  method DeleteContact(db: Database, id: Id) returns (r: Reply<()>)
    requires db.Valid()
    modifies db
    ensures db.Valid()
    ensures (r, db.State()) == DeleteSpec(old(db.State()), id)
  {
    var found := FindContact(db.contacts, id);
    if found.None? {
      return Failure(404, "Contact not found");
    }
    var k := found.value;
    DeleteWellFormed(db.State(), id);
    db.contacts := db.contacts[..k] + db.contacts[k + 1..];
    r := Success(200, ());
  }
}
