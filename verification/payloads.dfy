/** The request bodies the poll-pass engine sends to HubSpot
    (backend/src/services/hubspotService.js): contact and company property
    maps for create and update, the name split into `firstname`/`lastname`,
    the recently-modified search request, and the access-token test. The
    HTTP calls themselves are not part of this model; the push and pull
    passes take their replies as parameters. */
module Payloads {
  import opened Common
  import opened Text
  import opened Models

  /** A HubSpot `properties` object; an `undefined` value is not sent, so
      its key is absent. */
  type Properties = map<string, string>

  /** The fields of a contact document as the service reads them. */
  datatype ContactData = ContactData(
    name: Option<string>,
    email: Option<string>,
    phone: Option<string>,
    company: Option<string>)

  /** The fields of a company document as the service reads them. */
  datatype CompanyData = CompanyData(
    name: Option<string>,
    domain: Option<string>,
    industry: Option<string>)

  /** A stored contact: every field is defined. */
  function ContactFields(c: Contact): (d: ContactData)
    ensures d.name == Some(c.name) && d.email == Some(c.email)
    ensures d.phone == Some(c.phone) && d.company == Some(c.company)
  {
    ContactData(Some(c.name), Some(c.email), Some(c.phone), Some(c.company))
  }

  /** A stored company: every field is defined. */
  function CompanyFields(c: Company): (d: CompanyData)
    ensures d.name == Some(c.name) && d.domain == Some(c.domain) && d.industry == Some(c.industry)
  {
    CompanyData(Some(c.name), Some(c.domain), Some(c.industry))
  }

  // ---------------------------------------------------------------------
  // Names

  /** `name.split(' ')[0]`. */
  function FirstName(name: string): string {
    SplitSpace(name)[0]
  }

  /** `name.split(' ').slice(1).join(' ')`. */
  function LastName(name: string): string {
    JoinSpace(SplitSpace(name)[1..])
  }

  /** The pull's `[firstname || '', lastname || ''].join(' ').trim()`. */
  function HsName(first: Option<string>, last: Option<string>): string {
    Trim(OrEmpty(first) + " " + OrEmpty(last))
  }

  /** The first name holds no space, and it is the whole name (with an empty
      last name) exactly when the name holds no space. */
  lemma NameSplitShape(name: string)
    ensures ' ' !in FirstName(name)
    ensures ' ' !in name <==> FirstName(name) == name && LastName(name) == ""
  {
    SplitShape(name);
    JoinSplit(name);
    if ' ' !in name {
      assert SplitSpace(name)[1..] == [];
    }
  }

  /** First name and last name put back together with a space are the name,
      except that a name with no space gains a trailing one. */
  lemma SplitJoinName(name: string)
    ensures FirstName(name) + " " + LastName(name)
            == if ' ' in name then name else name + " "
  {
    var parts := SplitSpace(name);
    JoinSplit(name);
    SplitShape(name);
    if |parts| == 1 {
      assert parts[1..] == [];
    }
  }

  /** Round trip of a pushed name: splitting it into `firstname`/`lastname`
      on push and joining them back on pull gives the trimmed name, whether
      or not the name was truthy when pushed (a falsy name is sent as two
      empty strings). */
  lemma {:induction false} NameRoundTrip(name: string)
    ensures HsName(Some(FirstName(name)), Some(LastName(name))) == Trim(name)
  {
    SplitJoinName(name);
    if ' ' !in name {
      TrimAppendSpace(name);
    }
  }

  // ---------------------------------------------------------------------
  // Contact properties

  /** `createHubSpotContact`: all five properties, the name split (or two
      empty strings for a falsy name), phone and company defaulting to the
      empty string; an undefined e-mail is not sent. */
  function CreateContactProperties(d: ContactData): (p: Properties)
    ensures p.Keys == {"firstname", "lastname", "phone", "company"}
                      + (if d.email.Some? then {"email"} else {})
    ensures d.email.Some? ==> p["email"] == d.email.value
    ensures p["firstname"] == FirstName(OrEmpty(d.name)) && p["lastname"] == LastName(OrEmpty(d.name))
    ensures !Present(d.name) ==> p["firstname"] == "" && p["lastname"] == ""
    ensures HsName(Some(p["firstname"]), Some(p["lastname"])) == Trim(OrEmpty(d.name))
    ensures p["phone"] == OrEmpty(d.phone) && p["company"] == OrEmpty(d.company)
  {
    var name := OrEmpty(d.name);
    NameRoundTrip(name);
    var p := map["firstname" := FirstName(name), "lastname" := LastName(name),
                 "phone" := OrEmpty(d.phone), "company" := OrEmpty(d.company)];
    if d.email.Some? then p["email" := d.email.value] else p
  }

  /** `updateHubSpotContact`: a partial update holding only what is given —
      the split name when the name is truthy, the e-mail when truthy, phone
      and company whenever they are defined (even when empty). */
  method UpdateContactProperties(d: ContactData) returns (p: Properties)
    ensures ("firstname" in p) == Present(d.name) && ("lastname" in p) == Present(d.name)
    ensures ("email" in p) == Present(d.email)
    ensures ("phone" in p) == d.phone.Some? && ("company" in p) == d.company.Some?
    ensures p.Keys <= {"firstname", "lastname", "email", "phone", "company"}
    ensures Present(d.name) ==> p["firstname"] == FirstName(d.name.value) && p["lastname"] == LastName(d.name.value)
    ensures Present(d.name) ==> HsName(Some(p["firstname"]), Some(p["lastname"])) == Trim(d.name.value)
    ensures Present(d.email) ==> p["email"] == d.email.value
    ensures d.phone.Some? ==> p["phone"] == d.phone.value
    ensures d.company.Some? ==> p["company"] == d.company.value
  {
    p := map[];
    if Present(d.name) {
      NameRoundTrip(d.name.value);
      p := p["firstname" := FirstName(d.name.value)];
      p := p["lastname" := LastName(d.name.value)];
    }
    if Present(d.email) {
      p := p["email" := d.email.value];
    }
    if d.phone.Some? {
      p := p["phone" := d.phone.value];
    }
    if d.company.Some? {
      p := p["company" := d.company.value];
    }
  }

  // ---------------------------------------------------------------------
  // Company properties

  /** `createHubSpotCompany`: the name as given (absent when undefined),
      domain and industry defaulting to the empty string. */
  function CreateCompanyProperties(d: CompanyData): (p: Properties)
    ensures p.Keys == {"domain", "industry"} + (if d.name.Some? then {"name"} else {})
    ensures d.name.Some? ==> p["name"] == d.name.value
    ensures p["domain"] == OrEmpty(d.domain) && p["industry"] == OrEmpty(d.industry)
  {
    var p := map["domain" := OrEmpty(d.domain), "industry" := OrEmpty(d.industry)];
    if d.name.Some? then p["name" := d.name.value] else p
  }

  /** `updateHubSpotCompany`: the name when truthy, domain and industry
      whenever they are defined. */
  method UpdateCompanyProperties(d: CompanyData) returns (p: Properties)
    ensures ("name" in p) == Present(d.name)
    ensures ("domain" in p) == d.domain.Some? && ("industry" in p) == d.industry.Some?
    ensures p.Keys <= {"name", "domain", "industry"}
    ensures Present(d.name) ==> p["name"] == d.name.value
    ensures d.domain.Some? ==> p["domain"] == d.domain.value
    ensures d.industry.Some? ==> p["industry"] == d.industry.value
  {
    p := map[];
    if Present(d.name) {
      p := p["name" := d.name.value];
    }
    if d.domain.Some? {
      p := p["domain" := d.domain.value];
    }
    if d.industry.Some? {
      p := p["industry" := d.industry.value];
    }
  }

  /** A stored contact is created in HubSpot with all five properties, a
      non-empty first name and its stored e-mail. */
  lemma StoredContactPayloads(c: Contact)
    requires ContactInSchema(c)
    ensures var create := CreateContactProperties(ContactFields(c));
            && create.Keys == {"firstname", "lastname", "email", "phone", "company"}
            && create["firstname"] != ""
            && create["email"] == c.email
  {
    var name := c.name;
    assert name[0] != ' ' by {
      assert !IsSpace(name[0]);
    }
    assert SplitSpace(name)[0] != "" by {
      SplitStartsWith(name);
    }
  }

  /** A name that does not start with a space has a non-empty first token. */
  lemma SplitStartsWith(name: string)
    requires name != [] && name[0] != ' '
    ensures SplitSpace(name)[0] != "" && SplitSpace(name)[0][0] == name[0]
  {
  }

  // ---------------------------------------------------------------------
  // Search for recently modified records

  /** The only search operator the service uses. */
  datatype Operator = GTE

  datatype Filter = Filter(propertyName: string, operator: Operator, value: Time)

  /** The body of a `/search` request. */
  datatype SearchRequest = SearchRequest(
    filterGroups: seq<seq<Filter>>,
    properties: seq<string>,
    limit: nat)

  const ContactSearchProperties: seq<string> :=
    ["email", "firstname", "lastname", "phone", "company", "lastmodifieddate"]

  const CompanySearchProperties: seq<string> :=
    ["name", "domain", "industry", "hs_lastmodifieddate"]

  /** The search body for records whose `modified` property is at or after
      `since`; without a watermark there is no filter group at all. */
  method RecentlyModifiedQuery(modified: string, properties: seq<string>, since: Option<Time>)
    returns (q: SearchRequest)
    ensures since.None? ==> q.filterGroups == []
    ensures since.Some? ==> q.filterGroups == [[Filter(modified, GTE, since.value)]]
    ensures q.properties == properties && q.limit == 100
  {
    var filters: seq<Filter> := [];
    if since.Some? {
      filters := filters + [Filter(modified, GTE, since.value)];
      assert filters == [Filter(modified, GTE, since.value)];
    }
    q := SearchRequest(if |filters| > 0 then [filters] else [], properties, 100);
  }

  /** `getRecentlyModifiedContacts(since)`: filters on `lastmodifieddate`. */
  method RecentlyModifiedContactsQuery(since: Option<Time>) returns (q: SearchRequest)
    ensures since.None? ==> q.filterGroups == []
    ensures since.Some? ==> q.filterGroups == [[Filter("lastmodifieddate", GTE, since.value)]]
    ensures q.properties == ContactSearchProperties && q.limit == 100
  {
    q := RecentlyModifiedQuery("lastmodifieddate", ContactSearchProperties, since);
  }

  /** `getRecentlyModifiedCompanies(since)`: filters on `hs_lastmodifieddate`. */
  method RecentlyModifiedCompaniesQuery(since: Option<Time>) returns (q: SearchRequest)
    ensures since.None? ==> q.filterGroups == []
    ensures since.Some? ==> q.filterGroups == [[Filter("hs_lastmodifieddate", GTE, since.value)]]
    ensures q.properties == CompanySearchProperties && q.limit == 100
  {
    q := RecentlyModifiedQuery("hs_lastmodifieddate", CompanySearchProperties, since);
  }

  // ---------------------------------------------------------------------
  // Configuration

  /** The placeholder token shipped in the example environment file. */
  const PlaceholderToken := "your_hubspot_access_token_here"

  /** `isConfigured()`: a token is set and is not the placeholder. */
  predicate IsConfigured(token: Option<string>) {
    Present(token) && token.value != PlaceholderToken
  }

  /** The request interceptor: the `Authorization` header it adds, if any. */
  function AuthorizationHeader(token: Option<string>): (h: Option<string>)
    ensures h.Some? <==> IsConfigured(token)
    ensures h.Some? ==> h.value == "Bearer " + token.value
  {
    if Present(token) && token.value != PlaceholderToken then Some("Bearer " + token.value) else None
  }

  /** Neither a missing token nor the placeholder counts as configured. */
  lemma UnconfiguredTokens()
    ensures !IsConfigured(None) && !IsConfigured(Some(""))
    ensures !IsConfigured(Some(PlaceholderToken))
  {
  }
}
