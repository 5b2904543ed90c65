/**
  The deal-enrichment endpoint (api/acToPipe.js): from a CRM deal id it
  walks deal -> person -> primary email -> marketing-platform contact ->
  the contact's custom field values, takes the value of field "1" as the
  first URL the contact visited, and writes that URL onto the deal.

  The remote APIs are not called: each response the handler would receive
  is an input, and the handler reports the calls it issues in order.
 */
module AcToPipe {
  import opened Js
  import opened Http

  /** The five environment variables, `None` for one that is unset; an unset
      or empty one is falsy. */
  datatype Config = Config(
    pipedriveToken: Option<string>,
    companyDomain: Option<string>,
    acUrl: Option<string>,
    acKey: Option<string>,
    urlFieldId: Option<string>)

  predicate IsSet(v: Option<string>) {
    v.Some? && Truthy(Str(v.value))
  }

  predicate Configured(c: Config) {
    IsSet(c.pipedriveToken) && IsSet(c.companyDomain) && IsSet(c.acUrl)
    && IsSet(c.acKey) && IsSet(c.urlFieldId)
  }

  // Response bodies, reduced to the properties the handler reads. A `None`
  // is a missing or null property. Where the handler dereferences it, that
  // throws a TypeError inside the handler's `try`; the one exception is
  // `contacts`, which the handler tests with `!acContactData.contacts`.
  // List entries are always objects, and `contacts` is an array when present.

  /** `GET /deals/{id}`: `{ data: { person_id } }`. */
  datatype DealBody = DealBody(data: Option<Deal>)
  datatype Deal = Deal(personId: Value)

  /** `GET /persons/{id}`: `{ data: { email: [ { primary, value } ] } }`. */
  datatype PersonBody = PersonBody(data: Option<Person>)
  datatype Person = Person(email: Option<seq<EmailEntry>>)
  datatype EmailEntry = EmailEntry(primary: Value, value: Value)

  /** `GET /api/3/contacts?email=..`: `{ contacts: [ { id } ] }`. */
  datatype ContactsBody = ContactsBody(contacts: Option<seq<Contact>>)
  datatype Contact = Contact(id: Value)

  /** `GET /api/3/contacts/{id}/fieldValues`: `{ fieldValues: [ { field, value } ] }`. */
  datatype FieldValuesBody = FieldValuesBody(fieldValues: Option<seq<FieldValue>>)
  datatype FieldValue = FieldValue(field: Value, value: Value)

  /** The body of the deal update, which the handler never reads. */
  datatype Ignored = Ignored

  /** The body of the PUT: one custom-field key mapped to the URL. */
  type Payload = map<string, Value>

  /** The remote calls, in the only order the handler issues them. */
  datatype Call =
    | GetDeal(dealId: Value)
    | GetPerson(personId: Value)
    | FindContact(email: Value)
    | GetFieldValues(contactId: Value)
    | PutDeal(dealId: Value, payload: Payload)

  datatype Step = DealLookup | PersonLookup | ContactLookup | FieldValuesLookup | DealUpdate

  /** Why a request failed. */
  datatype Error =
    | MethodNotAllowed
    | NotConfigured
    | MissingDealId
    | Upstream(step: Step, status: int)   // `apiCall` got a response that is not ok
    | Malformed(step: Step)               // a response lacks a property the handler dereferences
    | NoPerson
    | NoEmail
    | NoContact
    | NoFirstUrl

  /** The position of a step, and of its call, in the chain. */
  function StepIndex(s: Step): nat {
    match s
    case DealLookup => 0
    case PersonLookup => 1
    case ContactLookup => 2
    case FieldValuesLookup => 3
    case DealUpdate => 4
  }

  function CallIndex(c: Call): nat {
    match c
    case GetDeal(_) => 0
    case GetPerson(_) => 1
    case FindContact(_) => 2
    case GetFieldValues(_) => 3
    case PutDeal(_, _) => 4
  }

  /** How many remote calls have been issued when the chain stops with `e`. */
  function CallsBefore(e: Error): nat {
    match e
    case Upstream(s, _) => StepIndex(s) + 1
    case Malformed(s) => StepIndex(s) + 1
    case NoPerson => 1
    case NoEmail => 2
    case NoContact => 3
    case NoFirstUrl => 4
    case _ => 0
  }

  /** The handler's answer: the HTTP status, the payload written or the
      error, and the remote calls issued. `success` is `result.Success?`. */
  datatype Outcome = Outcome(status: int, result: Result<Payload, Error>, calls: seq<Call>)

  predicate IsPrimary(e: EmailEntry) { Truthy(e.primary) }

  predicate IsUrlField(f: FieldValue) { f.field == Str("1") }

  /** `email.find(e => e.primary)?.value` */
  function PrimaryEmail(emails: seq<EmailEntry>): Value {
    match FindFirst(emails, IsPrimary)
    case None => Undefined
    case Some(i) => emails[i].value
  }

  /** `firstUrlField ? firstUrlField.value : null` after `find(field => field.field === '1')` */
  function FirstUrl(fields: seq<FieldValue>): Value {
    match FindFirst(fields, IsUrlField)
    case None => Null
    case Some(i) => fields[i].value
  }

  /** The value the chain takes from an email list, pinned to the entry that
      `find` selects: the first entry flagged primary. */
  lemma PrimaryEmailSelects(emails: seq<EmailEntry>)
    ensures forall i :: IsFirst(emails, IsPrimary, i) ==> PrimaryEmail(emails) == emails[i].value
    ensures (forall j :: 0 <= j < |emails| ==> !Truthy(emails[j].primary)) ==> PrimaryEmail(emails) == Undefined
  {
  }

  /** The URL the chain takes from a contact's field values: the value of the
      first entry whose field is the string "1", or null when there is none. */
  lemma FirstUrlSelects(fields: seq<FieldValue>)
    ensures forall i :: IsFirst(fields, IsUrlField, i) ==> FirstUrl(fields) == fields[i].value
    ensures (forall j :: 0 <= j < |fields| ==> fields[j].field != Str("1")) ==> FirstUrl(fields) == Null
  {
  }

  // ---------------------------------------------------------------------
  // The steps of the chain. Each one either extracts the value the next
  // call needs or fails; `apiCall` turns a response that is not ok into a
  // thrown error.

  /** `apiCall`: a response that is not ok is thrown as an error carrying its
      status; an ok response whose body is not JSON makes `response.json()` throw. */
  function ApiCall<T>(f: Fetched<T>, step: Step): (r: Result<T, Error>)
    ensures r.Success? <==> f.Delivered()
    ensures r.Success? ==> r.value == f.body.value
    ensures !f.Ok() ==> r == Failure(Upstream(step, f.status))
    ensures f.Ok() && f.body.None? ==> r == Failure(Malformed(step))
  {
    if !f.Ok() then Failure(Upstream(step, f.status))
    else if f.body.None? then Failure(Malformed(step))
    else Success(f.body.value)
  }

  /** Step 2: the person linked to the deal, which must be truthy. */
  function LinkedPerson(deal: Fetched<DealBody>): (r: Result<Value, Error>)
    ensures !deal.Delivered() ==> r == Failure(ApiCall(deal, DealLookup).error)
    ensures deal.Delivered() && deal.body.value.data.None? ==> r == Failure(Malformed(DealLookup))
    ensures r.Success? <==> deal.Delivered() && deal.body.value.data.Some? && Truthy(deal.body.value.data.value.personId)
    ensures r.Success? ==> r.value == deal.body.value.data.value.personId
    ensures deal.Delivered() && deal.body.value.data.Some? && r.Failure? ==> r.error == NoPerson
  {
    match ApiCall(deal, DealLookup)
    case Failure(e) => Failure(e)
    case Success(body) =>
      if body.data.None? then Failure(Malformed(DealLookup))
      else if !Truthy(body.data.value.personId) then Failure(NoPerson)
      else Success(body.data.value.personId)
  }

  /** Step 3: the value of the first email entry flagged primary; it must be truthy. */
  function PrimaryEmailOf(person: Fetched<PersonBody>): (r: Result<Value, Error>)
    ensures !person.Delivered() ==> r == Failure(ApiCall(person, PersonLookup).error)
    ensures person.Delivered() && (person.body.value.data.None? || person.body.value.data.value.email.None?)
            ==> r == Failure(Malformed(PersonLookup))
    ensures person.Delivered() && person.body.value.data.Some? && person.body.value.data.value.email.Some? ==>
              var emails := person.body.value.data.value.email.value;
              && (forall i :: IsFirst(emails, IsPrimary, i) ==>
                    r == if Truthy(emails[i].value) then Success(emails[i].value) else Failure(NoEmail))
              && ((forall j :: 0 <= j < |emails| ==> !Truthy(emails[j].primary)) ==> r == Failure(NoEmail))
    ensures r.Success? ==> Truthy(r.value)
  {
    match ApiCall(person, PersonLookup)
    case Failure(e) => Failure(e)
    case Success(body) =>
      if body.data.None? || body.data.value.email.None? then Failure(Malformed(PersonLookup))
      else
        var emails := body.data.value.email.value;
        PrimaryEmailSelects(emails);
        var email := PrimaryEmail(emails);
        if !Truthy(email) then Failure(NoEmail) else Success(email)
  }

  /** Step 4: the id of the first contact found for the email; a missing or
      empty contact list is an error. */
  function FirstContactId(contacts: Fetched<ContactsBody>): (r: Result<Value, Error>)
    ensures !contacts.Delivered() ==> r == Failure(ApiCall(contacts, ContactLookup).error)
    ensures r.Success? <==> contacts.Delivered() && contacts.body.value.contacts.Some?
                            && |contacts.body.value.contacts.value| > 0
    ensures r.Success? ==> r.value == contacts.body.value.contacts.value[0].id
    ensures contacts.Delivered() && r.Failure? ==> r.error == NoContact
  {
    match ApiCall(contacts, ContactLookup)
    case Failure(e) => Failure(e)
    case Success(body) =>
      if body.contacts.None? || |body.contacts.value| == 0 then Failure(NoContact)
      else Success(body.contacts.value[0].id)
  }

  /** Step 5: the value of the first field value whose field is the string "1";
      it must be truthy. */
  function FirstUrlOf(fieldValues: Fetched<FieldValuesBody>): (r: Result<Value, Error>)
    ensures !fieldValues.Delivered() ==> r == Failure(ApiCall(fieldValues, FieldValuesLookup).error)
    ensures fieldValues.Delivered() && fieldValues.body.value.fieldValues.None?
            ==> r == Failure(Malformed(FieldValuesLookup))
    ensures fieldValues.Delivered() && fieldValues.body.value.fieldValues.Some? ==>
              var fields := fieldValues.body.value.fieldValues.value;
              && (forall i :: IsFirst(fields, IsUrlField, i) ==>
                    r == if Truthy(fields[i].value) then Success(fields[i].value) else Failure(NoFirstUrl))
              && ((forall j :: 0 <= j < |fields| ==> fields[j].field != Str("1")) ==> r == Failure(NoFirstUrl))
    ensures r.Success? ==> Truthy(r.value)
  {
    match ApiCall(fieldValues, FieldValuesLookup)
    case Failure(e) => Failure(e)
    case Success(body) =>
      if body.fieldValues.None? then Failure(Malformed(FieldValuesLookup))
      else
        var fields := body.fieldValues.value;
        FirstUrlSelects(fields);
        var url := FirstUrl(fields);
        if !Truthy(url) then Failure(NoFirstUrl) else Success(url)
  }

  /** The responses the handler would receive, one per remote call. */
  datatype Responses = Responses(
    deal: Fetched<DealBody>,
    person: Fetched<PersonBody>,
    contacts: Fetched<ContactsBody>,
    fieldValues: Fetched<FieldValuesBody>,
    update: Fetched<Ignored>)

  /** The lookup chain inside the handler's `try`, once the guards have
      passed: each call is issued only when every earlier step succeeded,
      and the first failing step decides the error. */
  function Resolve(fieldId: string, dealId: Value, rs: Responses): (out: (Result<Payload, Error>, seq<Call>))
    ensures 1 <= |out.1| <= 5
    ensures forall k :: 0 <= k < |out.1| ==> CallIndex(out.1[k]) == k
    ensures out.1[0] == GetDeal(dealId)
    ensures out.0.Failure? ==> |out.1| == CallsBefore(out.0.error)
    ensures out.0.Failure? ==> out.0.error !in {MethodNotAllowed, NotConfigured, MissingDealId}
    // a call is issued only once the step before it succeeded, with that step's value
    ensures |out.1| >= 2 ==> LinkedPerson(rs.deal).Success? && out.1[1] == GetPerson(LinkedPerson(rs.deal).value)
    ensures |out.1| >= 3 ==> PrimaryEmailOf(rs.person).Success? && out.1[2] == FindContact(PrimaryEmailOf(rs.person).value)
    ensures |out.1| >= 4 ==> FirstContactId(rs.contacts).Success? && out.1[3] == GetFieldValues(FirstContactId(rs.contacts).value)
    // and a step that succeeded is always followed by the next call
    ensures |out.1| >= 2 <==> LinkedPerson(rs.deal).Success?
    ensures |out.1| >= 3 <==> |out.1| >= 2 && PrimaryEmailOf(rs.person).Success?
    ensures |out.1| >= 4 <==> |out.1| >= 3 && FirstContactId(rs.contacts).Success?
    ensures |out.1| == 5 <==> |out.1| >= 4 && FirstUrlOf(rs.fieldValues).Success?
    ensures |out.1| == 5 ==> FirstUrlOf(rs.fieldValues).Success?
                             && out.1[4] == PutDeal(dealId, map[fieldId := FirstUrlOf(rs.fieldValues).value])
    // the first failing step decides the error
    ensures LinkedPerson(rs.deal).Failure? ==> out.0 == Failure(LinkedPerson(rs.deal).error)
    ensures |out.1| == 2 ==> PrimaryEmailOf(rs.person).Failure? && out.0 == Failure(PrimaryEmailOf(rs.person).error)
    ensures |out.1| == 3 ==> FirstContactId(rs.contacts).Failure? && out.0 == Failure(FirstContactId(rs.contacts).error)
    ensures |out.1| == 4 ==> FirstUrlOf(rs.fieldValues).Failure? && out.0 == Failure(FirstUrlOf(rs.fieldValues).error)
    ensures |out.1| == 5 ==> out.0 == if rs.update.Delivered() then Success(out.1[4].payload)
                                      else Failure(ApiCall(rs.update, DealUpdate).error)
  {
    var c1 := [GetDeal(dealId)];
    match LinkedPerson(rs.deal)
    case Failure(e) => (Failure(e), c1)
    case Success(personId) =>
      var c2 := c1 + [GetPerson(personId)];
      match PrimaryEmailOf(rs.person)
      case Failure(e) => (Failure(e), c2)
      case Success(email) =>
        var c3 := c2 + [FindContact(email)];
        match FirstContactId(rs.contacts)
        case Failure(e) => (Failure(e), c3)
        case Success(contactId) =>
          var c4 := c3 + [GetFieldValues(contactId)];
          match FirstUrlOf(rs.fieldValues)
          case Failure(e) => (Failure(e), c4)
          case Success(url) =>
            var payload := map[fieldId := url];
            var c5 := c4 + [PutDeal(dealId, payload)];
            match ApiCall(rs.update, DealUpdate)
            case Failure(e) => (Failure(e), c5)
            case Success(_) => (Success(payload), c5)
  }

  /** The request handler: the method check, the configuration check and the
      deal-id check, in that order and before any remote call, then the chain,
      whose every failure is answered with 500. */
  function Handle(verb: Method, cfg: Config, dealId: Value, rs: Responses): (o: Outcome)
    ensures verb != Post ==> o == Outcome(405, Failure(MethodNotAllowed), [])
    ensures verb == Post && !Configured(cfg) ==> o == Outcome(500, Failure(NotConfigured), [])
    ensures verb == Post && Configured(cfg) && !Truthy(dealId) ==> o == Outcome(400, Failure(MissingDealId), [])
    ensures o.status == 200 <==> o.result.Success?
    ensures o.status in {200, 400, 405, 500}
    ensures o.calls != [] <==> verb == Post && Configured(cfg) && Truthy(dealId)
    ensures o.calls != [] && o.result.Failure? ==> o.status == 500
  {
    if verb != Post then Outcome(405, Failure(MethodNotAllowed), [])
    else if !Configured(cfg) then Outcome(500, Failure(NotConfigured), [])
    else if !Truthy(dealId) then Outcome(400, Failure(MissingDealId), [])
    else
      var (r, calls) := Resolve(cfg.urlFieldId.value, dealId, rs);
      Outcome(if r.Success? then 200 else 500, r, calls)
  }

  // ---------------------------------------------------------------------
  // Properties of the whole handler

  /** The handler succeeds exactly when every guard passes, every step of the
      chain succeeds and the deal update is accepted; it then writes one
      property, the configured field id, holding the URL, after issuing the
      five calls in order. */
  lemma SucceedsExactlyWhen(verb: Method, cfg: Config, dealId: Value, rs: Responses)
    ensures var o := Handle(verb, cfg, dealId, rs);
            o.result.Success? <==>
              && verb == Post && Configured(cfg) && Truthy(dealId)
              && LinkedPerson(rs.deal).Success? && PrimaryEmailOf(rs.person).Success?
              && FirstContactId(rs.contacts).Success? && FirstUrlOf(rs.fieldValues).Success?
              && rs.update.Delivered()
    ensures var o := Handle(verb, cfg, dealId, rs);
            o.result.Success? ==>
              var fieldId := cfg.urlFieldId.value;
              var url := FirstUrlOf(rs.fieldValues).value;
              && o.status == 200
              && o.result.value.Keys == {fieldId} && o.result.value[fieldId] == url
              && o.calls == [GetDeal(dealId), GetPerson(LinkedPerson(rs.deal).value),
                             FindContact(PrimaryEmailOf(rs.person).value),
                             GetFieldValues(FirstContactId(rs.contacts).value),
                             PutDeal(dealId, map[fieldId := url])]
  {
  }

  /** The status of the response a step receives. */
  function StatusAt(rs: Responses, s: Step): int {
    match s
    case DealLookup => rs.deal.status
    case PersonLookup => rs.person.status
    case ContactLookup => rs.contacts.status
    case FieldValuesLookup => rs.fieldValues.status
    case DealUpdate => rs.update.status
  }

  /** A response that is not ok ends the request with 500 and an upstream
      error for the step that received it, and no later call is issued. */
  lemma NotOkResponseFails(verb: Method, cfg: Config, dealId: Value, rs: Responses, s: Step, status: int)
    ensures var o := Handle(verb, cfg, dealId, rs);
            o.result == Failure(Upstream(s, status)) ==>
              && o.status == 500
              && |o.calls| == StepIndex(s) + 1
              && CallIndex(o.calls[|o.calls| - 1]) == StepIndex(s)
              && StatusAt(rs, s) == status && !(200 <= status <= 299)
  {
  }

  /** The five step results determine the whole answer: when every step
      yields its value, the handler answers 200 with the one-key payload
      after issuing the five calls with those values. */
  lemma StepsCompose(verb: Method, cfg: Config, dealId: Value, rs: Responses,
                     personId: Value, email: Value, contactId: Value, url: Value)
    requires verb == Post && Configured(cfg) && Truthy(dealId)
    requires LinkedPerson(rs.deal) == Success(personId)
    requires PrimaryEmailOf(rs.person) == Success(email)
    requires FirstContactId(rs.contacts) == Success(contactId)
    requires FirstUrlOf(rs.fieldValues) == Success(url)
    requires rs.update.Delivered()
    ensures var payload := map[cfg.urlFieldId.value := url];
            Handle(verb, cfg, dealId, rs)
              == Outcome(200, Success(payload),
                         [GetDeal(dealId), GetPerson(personId), FindContact(email),
                          GetFieldValues(contactId), PutDeal(dealId, payload)])
  {
  }

  // ---------------------------------------------------------------------
  // Worked cases

  /** Person 20's emails: the second is the first one flagged primary. */
  const SampleEmails := [
    EmailEntry(Bool(false), Str("old@b.com")),
    EmailEntry(Bool(true), Str("a@b.com")),
    EmailEntry(Bool(true), Str("other@b.com"))]

  /** Contact 30's field values: the number 1 does not match the string "1",
      and the first entry with field "1" wins over a later one. */
  const SampleFields := [
    FieldValue(Num(1.0), Str("n")),
    FieldValue(Str("2"), Str("z")),
    FieldValue(Str("1"), Str("u1")),
    FieldValue(Str("1"), Str("u2"))]

  /** Deal 10 links person 20; two contacts share the email. */
  const SampleResponses := Responses(
    Fetched(200, Some(DealBody(Some(Deal(Num(20.0)))))),
    Fetched(200, Some(PersonBody(Some(Person(Some(SampleEmails)))))),
    Fetched(200, Some(ContactsBody(Some([Contact(Num(30.0)), Contact(Num(31.0))])))),
    Fetched(200, Some(FieldValuesBody(Some(SampleFields)))),
    Fetched(200, Some(Ignored)))

  const SampleConfig := Config(Some("t"), Some("d"), Some("u"), Some("k"), Some("f"))

  lemma SampleSteps()
    ensures LinkedPerson(SampleResponses.deal) == Success(Num(20.0))
    ensures PrimaryEmailOf(SampleResponses.person) == Success(Str("a@b.com"))
    ensures FirstContactId(SampleResponses.contacts) == Success(Num(30.0))
    ensures FirstUrlOf(SampleResponses.fieldValues) == Success(Str("u1"))
  {
    assert IsFirst(SampleEmails, IsPrimary, 1);
    assert IsFirst(SampleFields, IsUrlField, 2);
  }

  /** The sample deal resolves to "u1", written under the configured field id
      after the five calls in order. */
  lemma EndToEnd()
    ensures Handle(Post, SampleConfig, Num(10.0), SampleResponses)
              == Outcome(200, Success(map["f" := Str("u1")]),
                         [GetDeal(Num(10.0)), GetPerson(Num(20.0)), FindContact(Str("a@b.com")),
                          GetFieldValues(Num(30.0)), PutDeal(Num(10.0), map["f" := Str("u1")])])
  {
    SampleSteps();
    StepsCompose(Post, SampleConfig, Num(10.0), SampleResponses,
                 Num(20.0), Str("a@b.com"), Num(30.0), Str("u1"));
  }

  /** An empty value in the first field "1" is an error even when a later
      field "1" holds a URL: `find` stops at the first match. */
  lemma EmptyFirstMatchStops()
    ensures
      var fv := Fetched(200, Some(FieldValuesBody(Some([
        FieldValue(Str("1"), Str("")),
        FieldValue(Str("1"), Str("https://site.com/"))]))));
      FirstUrlOf(fv) == Failure(NoFirstUrl)
  {
  }
}
