/** The legacy HubSpot service (backend/services/hubspotService.js): the
    mapping of a local contact to HubSpot properties, the search by e-mail
    and the choice of its result, and the create and update requests. The
    requests go through `HubSpotClient.Request`; here they are the values
    the service hands to it. */
module LegacyHubSpot {
  import opened Common
  import opened LegacyModels

  /** A HubSpot `properties` object; an `undefined` value is not serialised,
      so its key is absent. */
  type Properties = map<string, string>

  /** `toHubSpotFormat(contact).properties`. */
  function ToHubSpotFormat(c: LegacyContact): (p: Properties)
    ensures p.Keys == {"email"} + (if c.firstName.Some? then {"firstname"} else {})
                      + (if c.lastName.Some? then {"lastname"} else {})
                      + (if c.phone.Some? then {"phone"} else {})
    ensures p["email"] == c.email
    ensures c.firstName.Some? ==> p["firstname"] == c.firstName.value
    ensures c.lastName.Some? ==> p["lastname"] == c.lastName.value
    ensures c.phone.Some? ==> p["phone"] == c.phone.value
  {
    var p := map["email" := c.email];
    var p := if c.firstName.Some? then p["firstname" := c.firstName.value] else p;
    var p := if c.lastName.Some? then p["lastname" := c.lastName.value] else p;
    if c.phone.Some? then p["phone" := c.phone.value] else p
  }

  /** The only search operator the legacy service uses. */
  datatype EqOperator = EQ

  datatype EqFilter = EqFilter(propertyName: string, operator: EqOperator, value: string)

  /** The body of the `/search` request of `getContactByEmail`. */
  datatype EmailSearch = EmailSearch(filterGroups: seq<seq<EqFilter>>)

  /** The search for one e-mail: a single exact-match filter. */
  function EmailSearchBody(email: string): (q: EmailSearch)
    ensures |q.filterGroups| == 1 && |q.filterGroups[0]| == 1
    ensures q.filterGroups[0][0] == EqFilter("email", EQ, email)
  {
    EmailSearch([[EqFilter("email", EQ, email)]])
  }

  /** `response.results.length > 0 ? response.results[0] : null`. */
  function FirstResult(results: seq<HsContact>): (r: Option<HsContact>)
    ensures r.None? <==> results == []
    ensures r.Some? ==> r.value == results[0]
  {
    if |results| > 0 then Some(results[0]) else None
  }

  /** A request of the legacy service: the search of `getContactByEmail`;
      `createContact` posts the mapped contact; `updateContact` patches the
      given HubSpot id with the same mapping. */
  datatype LegacyCall =
    | SearchCall(body: EmailSearch)
    | CreateCall(payload: Properties)
    | UpdateCall(hubspotId: string, payload: Properties)

  function CreateContactCall(c: LegacyContact): (call: LegacyCall)
    ensures call.CreateCall? && call.payload == ToHubSpotFormat(c)
  {
    CreateCall(ToHubSpotFormat(c))
  }

  function UpdateContactCall(hubspotId: string, c: LegacyContact): (call: LegacyCall)
    ensures call.UpdateCall? && call.hubspotId == hubspotId && call.payload == ToHubSpotFormat(c)
  {
    UpdateCall(hubspotId, ToHubSpotFormat(c))
  }

  /** Create and update send the same properties; only the target differs. */
  lemma SamePayload(hubspotId: string, c: LegacyContact)
    ensures CreateContactCall(c).payload == UpdateContactCall(hubspotId, c).payload
  {
  }

  /** The mapping never sends more than the four properties, always sends
      the e-mail, and sends nothing about the local id, the HubSpot id or the
      modification time. */
  lemma FormatKeys(c: LegacyContact, d: LegacyContact)
    requires d.email == c.email && d.firstName == c.firstName && d.lastName == c.lastName && d.phone == c.phone
    ensures ToHubSpotFormat(c).Keys <= {"email", "firstname", "lastname", "phone"}
    ensures ToHubSpotFormat(c) == ToHubSpotFormat(d)
  {
  }
}
