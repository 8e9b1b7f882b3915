/** The company write path of the poll-pass engine
    (backend/src/controllers/companiesController.js): create with a name check
    and a domain uniqueness check, and field-wise update that always marks the
    record `pending`. Each handler is specified by a function from the
    database before the request to the reply and the database after it. */
module CompaniesController {
  import opened Common
  import opened Text
  import opened Models
  import opened Store

  /** A request body; a missing key is None. */
  datatype CompanyInput = CompanyInput(
    name: Option<string>,
    domain: Option<string>,
    industry: Option<string>)

  /** `!name || !name.trim()`. */
  predicate NameBlank(o: Option<string>) {
    !Present(o) || Trim(o.value) == ""
  }

  /** `domain && domain.trim()`: a domain is checked for duplicates only when
      it is supplied and not blank. */
  predicate DomainGiven(o: Option<string>) {
    Present(o) && Trim(o.value) != ""
  }

  /** The document the create handler builds from a validated body. */
  function NewFromInput(id: Id, input: CompanyInput, now: Time): (c: Company)
    requires !NameBlank(input.name)
    ensures CompanyInSchema(c)
    ensures c.id == id && c.name == Trim(input.name.value)
    ensures c.domain == (if Present(input.domain) then ToLower(Trim(input.domain.value)) else "")
    ensures c.industry == (if Present(input.industry) then Trim(input.industry.value) else "")
    ensures c.externalId == None && c.lastModified == now && c.syncStatus == Pending
  {
    TrimmedEnds(input.name.value);
    LowerTrimShape(input.domain.GetOr(""));
    TrimmedEnds(input.industry.GetOr(""));
    var c := NewCompany(id, Trim(input.name.value), now);
    c.(domain := if Present(input.domain) then ToLower(Trim(input.domain.value)) else "",
       industry := if Present(input.industry) then Trim(input.industry.value) else "")
  }

  // ---------------------------------------------------------------------
  // POST /api/companies

  /** The create handler as a function of the database. */
  function CreateSpec(t: Tables, input: CompanyInput, now: Time): (Reply<Company>, Tables) {
    if NameBlank(input.name) then (Failure(400, "Company name is required"), t)
    else if DomainGiven(input.domain) && FindCompanyByDomain(t.companies, ToLower(input.domain.value)).Some? then
      (Failure(400, "Company with domain \"" + input.domain.value + "\" already exists"), t)
    else
      match SaveCompany(NewFromInput(t.nextId, input, now))
      case None => (Failure(500, "Failed to create company"), t)
      case Some(c) => (Success(201, c), t.(companies := t.companies + [c], nextId := t.nextId + 1))
  }

  /** A create succeeds exactly when a name is given and a given domain is
      not already stored; a failed create changes nothing, and a successful
      one appends the normalised company under a fresh id. */
  lemma CreateOutcome(t: Tables, input: CompanyInput, now: Time)
    ensures var (r, t') := CreateSpec(t, input, now);
            && (r.Success? <==> !NameBlank(input.name)
                                && !(DomainGiven(input.domain)
                                     && FindCompanyByDomain(t.companies, ToLower(input.domain.value)).Some?))
            && (r.Failure? ==> r.code == 400 && t' == t)
            && (r.Success? ==> r.code == 201 && r.body == NewFromInput(t.nextId, input, now)
                               && t' == t.(companies := t.companies + [r.body], nextId := t.nextId + 1))
  {
    if !NameBlank(input.name) {
      SaveNormalCompany(NewFromInput(t.nextId, input, now));
    }
  }

  /** A non-empty domain given at creation is never shared with a company
      stored before. */
  lemma CreateUniqueDomain(t: Tables, input: CompanyInput, now: Time)
    ensures var (r, _) := CreateSpec(t, input, now);
            r.Success? && r.body.domain != "" ==>
              forall j :: 0 <= j < |t.companies| ==> t.companies[j].domain != r.body.domain
  {
    if !NameBlank(input.name) {
      SaveNormalCompany(NewFromInput(t.nextId, input, now));
      if Present(input.domain) {
        TrimLowerCommute(input.domain.value);
      }
    }
  }

  /** Creating keeps the database well formed. */
  lemma CreateWellFormed(t: Tables, input: CompanyInput, now: Time)
    requires WellFormed(t)
    ensures WellFormed(CreateSpec(t, input, now).1)
  {
    if !NameBlank(input.name) {
      SaveNormalCompany(NewFromInput(t.nextId, input, now));
    }
  }

  /** `Company.create` on a validated body: the normalised document is
      stored under the next id. */
  method InsertNormalised(db: Database, input: CompanyInput, now: Time) returns (r: Reply<Company>)
    requires db.Valid() && !NameBlank(input.name)
    modifies db
    ensures db.Valid()
    ensures r == Success(201, NewFromInput(old(db.nextId), input, now))
    ensures db.State() == old(db.State()).(companies := old(db.companies) + [r.body], nextId := old(db.nextId) + 1)
  {
    var c := NewFromInput(db.nextId, input, now);
    assert c.(id := db.nextId) == c;
    var saved := db.InsertCompany(c);
    r := if saved.Some? then Success(201, saved.value) else Failure(500, "Failed to create company");
  }

  method CreateCompany(db: Database, input: CompanyInput, now: Time) returns (r: Reply<Company>)
    requires db.Valid()
    modifies db
    ensures db.Valid()
    ensures (r, db.State()) == CreateSpec(old(db.State()), input, now)
  {
    if NameBlank(input.name) {
      return Failure(400, "Company name is required");
    }
    if DomainGiven(input.domain) {
      var existing := FindCompanyByDomain(db.companies, ToLower(input.domain.value));
      if existing.Some? {
        return Failure(400, "Company with domain \"" + input.domain.value + "\" already exists");
      }
    }
    r := InsertNormalised(db, input, now);
  }

  // ---------------------------------------------------------------------
  // PUT /api/companies/:id

  /** The fields the update handler assigns, applied to the stored company `c`. */
  function Edited(c: Company, input: CompanyInput): (e: Company)
    ensures e.id == c.id && e.lastModified == c.lastModified && e.externalId == c.externalId
    ensures e.syncStatus == Pending
    ensures e.name == (if Present(input.name) then Trim(input.name.value) else c.name)
    ensures e.domain == (if input.domain.Some? then ToLower(Trim(input.domain.value)) else c.domain)
    ensures e.industry == (if input.industry.Some? then Trim(input.industry.value) else c.industry)
  {
    c.(name := if Present(input.name) then Trim(input.name.value) else c.name,
       domain := if input.domain.Some? then ToLower(Trim(input.domain.value)) else c.domain,
       industry := if input.industry.Some? then Trim(input.industry.value) else c.industry,
       syncStatus := Pending)
  }

  /** The update keeps the required name: it is not supplied as a string
      that trims to nothing. */
  predicate KeepsName(input: CompanyInput) {
    !(Present(input.name) && Trim(input.name.value) == "")
  }

  /** Editing a stored company yields a document the setters leave alone; it
      fails validation exactly when a supplied name trims to nothing. */
  lemma EditedSaves(c: Company, input: CompanyInput)
    requires CompanyInSchema(c)
    ensures SaveCompany(Edited(c, input)) == if KeepsName(input) then Some(Edited(c, input)) else None
  {
    var e := Edited(c, input);
    TrimmedField(c.name, input.name, Present(input.name));
    LowerField(c.domain, input.domain, input.domain.Some?);
    TrimmedField(c.industry, input.industry, input.industry.Some?);
    SaveNormalCompany(e);
  }

  /** The update handler as a function of the database. */
  function UpdateSpec(t: Tables, id: Id, input: CompanyInput): (Reply<Company>, Tables) {
    match FindCompany(t.companies, id)
    case None => (Failure(404, "Company not found"), t)
    case Some(k) =>
      match SaveCompany(Edited(t.companies[k], input))
      case None => (Failure(500, "Failed to update company"), t)
      case Some(c) => (Success(200, c), t.(companies := t.companies[k := c]))
  }

  /** An update of a missing company is a 404; otherwise it succeeds exactly
      when it keeps the name, and then replaces the stored company by the
      edited one, marked `pending`, with `lastModified` and `externalId`
      untouched. A failed update changes nothing. */
  lemma UpdateOutcome(t: Tables, id: Id, input: CompanyInput)
    requires WellFormed(t)
    ensures var (r, t') := UpdateSpec(t, id, input);
            && (FindCompany(t.companies, id).None? ==> r == Failure(404, "Company not found"))
            && (r.Failure? ==> t' == t)
            && (FindCompany(t.companies, id).Some? ==>
                  var k := FindCompany(t.companies, id).value;
                  && (r.Success? <==> KeepsName(input))
                  && (r.Failure? ==> r == Failure(500, "Failed to update company"))
                  && (r.Success? ==> r.code == 200 && r.body == Edited(t.companies[k], input)
                                     && t' == t.(companies := t.companies[k := r.body])))
  {
    var found := FindCompany(t.companies, id);
    if found.Some? {
      EditedSaves(t.companies[found.value], input);
    }
  }

  /** Updating keeps the database well formed. */
  lemma UpdateWellFormed(t: Tables, id: Id, input: CompanyInput)
    requires WellFormed(t)
    ensures WellFormed(UpdateSpec(t, id, input).1)
  {
    var found := FindCompany(t.companies, id);
    if found.Some? {
      EditedSaves(t.companies[found.value], input);
    }
  }

  method UpdateCompany(db: Database, id: Id, input: CompanyInput) returns (r: Reply<Company>)
    requires db.Valid()
    modifies db
    ensures db.Valid()
    ensures (r, db.State()) == UpdateSpec(old(db.State()), id, input)
  {
    var found := FindCompany(db.companies, id);
    if found.None? {
      return Failure(404, "Company not found");
    }
    var k := found.value;
    var saved := db.StoreCompany(k, Edited(db.companies[k], input));
    if saved.None? {
      return Failure(500, "Failed to update company");
    }
    r := Success(200, saved.value);
  }
}
