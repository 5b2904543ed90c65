# Pipedrive proxy API — decision logic in Dafny

This project models the two request handlers of the Pipedrive proxy API that
hold real decision logic. Both are written as pure functions over abstract
inputs.

* **Sync status** (`api/status.js`): a key-value store maps a contact's phone
  number to its sync record. The phone number is used verbatim as the key. A
  record has the optional fields `dealId`, `lastMessageIdentifier`, `syncedBy`
  and `lastSyncTimestamp`. A POST reads the stored record, or `{}` when none
  is stored. It copies the record and overwrites only the fields the request
  supplied (`!== undefined`). Supplying `syncedBy` also stamps
  `lastSyncTimestamp` with the current time. The handler writes the merged
  record back and returns it. A GET returns the stored record or 404. OPTIONS
  answers the CORS preflight; any other method gets 405.
* **Deal enrichment** (`api/acToPipe.js`): a POST with a CRM `dealId` runs a
  fixed chain. It fetches the deal and takes its `person_id`. It fetches the
  person and takes the value of the first email flagged `primary`. It looks
  that email up in ActiveCampaign and takes the first contact. It fetches the
  contact's field values and takes the value of the first entry whose `field`
  is the string `"1"`. Finally it PUTs `{ [PIPEDRIVE_URL_FIELD_ID]: url }`
  onto the deal. Any failure along the way is answered with 500 and
  `success: false`.

Layout:

* `js.dfy`, module `Js`: JavaScript values and their truthiness (`if (!x)`),
  `Option`/`Result`, and `FindFirst`, which is `Array.prototype.find`.
* `http.dfy`, module `Http`: request methods and the responses of outgoing
  `fetch` calls (status code plus parsed body).
* `sync_status.dfy`, module `SyncStatus`: the record, the merge, the handler
  over a `map<string, Record>` store, and the store-level properties.
* `ac_to_pipe.dfy`, module `AcToPipe`: the remote response shapes, one
  function per step of the chain, the chain with the trace of remote calls it
  issues, and the handler.

External effects become inputs. The clock's ISO time is a `now: string`
parameter. A key-value call that throws is a `kvFault: bool` parameter. Every
remote response is a `Fetched<T>` value (a status plus a body that is `None`
when it is not JSON). The deal-enrichment handler returns the list of remote
calls it issues, so "no later step runs" can be stated and proved.

## Model

| member | source | states |
|---|---|---|
| `Js.FindFirst` | api/acToPipe.js:71 | `find` returns the first element satisfying the predicate: the index it yields satisfies it and no earlier one does; it yields nothing exactly when no element does |
| `Js.FirstIsUnique` | api/acToPipe.js:46 | any index that satisfies the predicate with no earlier satisfying element is the one `find` picks |
| `SyncStatus.Key` | api/status.js:24-26 | a phone number gives a storage key exactly when it is present and non-empty (truthy), and then the key is the number itself |
| `SyncStatus.Existing` | api/status.js:30 | the record read before merging is the stored one, or the empty record `{}` when nothing is stored |
| `SyncStatus.Merge` | api/status.js:32-40 | `dealId` and `lastMessageIdentifier` are replaced when supplied and otherwise kept; supplying `syncedBy` sets it and sets `lastSyncTimestamp` to `now`; without it both keep their prior values |
| `SyncStatus.Handle` | api/status.js:16-69 | OPTIONS is answered 200 and any method other than GET, POST and OPTIONS 405, both without touching the store; 400 is answered exactly when the method's phone number is missing or empty; 500 exactly on a store fault; the store changes only on a successful POST, and never at another key |
| `SyncStatus.ObjectRoundTrip` | api/status.js:43 | writing a record as its JSON object and reading the object back gives the same record |
| `SyncStatus.MergeIsSpread` | api/status.js:32-40 | the merged record, as an object, is the stored object spread and then overwritten by exactly the properties the request assigns |
| `SyncStatus.UpsertFromEmpty` | api/status.js:30-40 | with nothing stored under the key, the result holds only the supplied fields plus the timestamp when `syncedBy` was supplied |
| `SyncStatus.MergeKeepsProperties` | api/status.js:29-32 | a merge never removes a property the stored record had |
| `SyncStatus.MergeIdempotent` | api/status.js:32-40 | applying the same fields twice equals applying them once at the later time, so only the timestamp can differ |
| `SyncStatus.DisjointPatchesCommute` | api/status.js:35-40 | two updates that supply disjoint fields, each stamped with its own time, give the same record in either order |
| `SyncStatus.FieldIsolation` | api/status.js:35-36 | upserting `{dealId: x}` and then `{lastMessageIdentifier: y}` keeps both, and leaves `syncedBy` and the timestamp as they were |
| `SyncStatus.MergeField` | api/status.js:32-40 | after one POST a property holds the value the POST assigns to it, if any, and otherwise its stored value |
| `SyncStatus.ReplayLatestWins` | api/status.js:30-43 | after any series of POSTs to one key, each property holds the value of the latest POST that assigned it, or its original value when none did |
| `SyncStatus.PostUpserts` | api/status.js:43-45 | a POST with a phone number answers 200 with the merged record, stores exactly that record under the number, adds no other key and changes no other key |
| `SyncStatus.GetReads` | api/status.js:59-63 | a GET never changes the store; it answers 404 exactly when nothing is stored under the number and otherwise 200 with the stored record unchanged |
| `SyncStatus.MissingPhoneRejected` | api/status.js:24-57 | a POST or GET without a usable phone number is answered 400 and the store is untouched, whatever else the request holds and even if the store would fail |
| `SyncStatus.PostThenGet` | api/status.js:43-63 | a GET after a POST on the same number returns the record the POST answered with |
| `SyncStatus.RepeatedPost` | api/status.js:30-45 | sending the same POST twice leaves the same response and store as one POST at the later time |
| `AcToPipe.ApiCall` | api/acToPipe.js:4-11 | a remote call succeeds exactly when the response is ok (2xx) and its body is JSON; a response that is not ok fails with an upstream error carrying its status |
| `AcToPipe.LinkedPerson` | api/acToPipe.js:38-42 | the chain continues exactly when the deal response is delivered and its `person_id` is truthy, with that id; a falsy id is the "no person" error |
| `AcToPipe.PrimaryEmailOf` | api/acToPipe.js:45-49 | the email used is the `value` of the first entry whose `primary` is truthy; a falsy value there, or no primary entry at all, is the "no email" error |
| `AcToPipe.PrimaryEmailSelects` | api/acToPipe.js:46 | `find(e => e.primary)?.value` is the value of the first primary entry, and `undefined` when none is primary |
| `AcToPipe.FirstContactId` | api/acToPipe.js:52-58 | the chain continues exactly when the contact list is present and non-empty, with the id of `contacts[0]`; otherwise it is the "no contact" error |
| `AcToPipe.FirstUrlOf` | api/acToPipe.js:64-76 | the URL is the `value` of the first field value whose `field` is strictly the string `"1"`; a falsy value there, or no such entry, is the "no first URL" error |
| `AcToPipe.FirstUrlSelects` | api/acToPipe.js:71-72 | the selected value is that of the first entry with field `"1"`, and `null` when no entry has it |
| `AcToPipe.Resolve` | api/acToPipe.js:36-94 | calls are issued in the fixed order deal, person, contact, field values, update; each call is issued exactly when the step before it succeeded, with that step's value; the first failing step decides the error and no later call is issued |
| `AcToPipe.Handle` | api/acToPipe.js:14-34 | a non-POST is 405, then missing configuration is 500, then a falsy `dealId` is 400, all before any remote call; the status is 200 exactly on success and 500 for every failure inside the chain |
| `AcToPipe.SucceedsExactlyWhen` | api/acToPipe.js:79-90 | the handler succeeds exactly when every guard passes, every step succeeds and the update is accepted; the payload then has the configured field id as its only key, mapped to the found URL, and the five calls were issued in order |
| `AcToPipe.StepsCompose` | api/acToPipe.js:36-90 | when the guards pass, every step yields its value and the update is delivered, the answer is 200 with the configured field id mapped to the URL, after the five calls carrying exactly those values |
| `AcToPipe.NotOkResponseFails` | api/acToPipe.js:6-8 | an upstream error names the step that got a non-2xx response and its status, the request is answered 500, and that step's call was the last one issued |
| `AcToPipe.EndToEnd` | api/acToPipe.js:38-90 | a worked deal whose second email is the first primary one, with two contacts, a numeric field `1` that does not match `"1"`, and two `"1"` entries resolves to the first `"1"` entry's URL |
| `AcToPipe.EmptyFirstMatchStops` | api/acToPipe.js:71-76 | an empty value in the first `"1"` entry is an error even when a later `"1"` entry has a URL |

## Left out

- HTTP plumbing: CORS headers, JSON (de)serialisation, `res.status(..).json(..)` framing, and `fetch`. Responses are modelled as datatypes and remote responses as inputs.
- Client construction: the `kv` client and `process.env` reads. The store is a map parameter, and the configuration is a `Config` value.
- Error and message strings, and the URLs built from the configuration and ids. Errors are an `Error` kind, and calls are recorded with the ids they carry.
- The clock: `new Date().toISOString()` is the opaque `now` string.
- Concurrent POSTs and the lost-update race on the key-value store. The model has one sequential store.
- SyncStatus.Handle: a thrown key-value call is one `kvFault` flag. The model assumes the write did not land. Whether a failed `kv.set` stored anything cannot be known from the handler.
- SyncStatus.Key: only string phone numbers are modelled. A numeric or array `phoneNumber` would be stringified by the key-value client, and that conversion is not modelled.
- SyncStatus.Existing: the store holds only records. That is all the handler ever writes, so "a falsy stored value" is the same as "nothing stored". Values written by other programs are not modelled.
- A request whose `body` is missing makes the destructuring throw outside the `try`. That path is not modelled.
- Numbers are reals plus `NaN`. Infinities are not modelled, and neither is the distinction between `-0` and `0` (both are falsy).
- A `person_id` that is an object rather than a bare id is truthy, so it is passed on as it is. The source would put its string form into the person URL. The model records the call with the object and does not model the URL.
- The error payload of a response that is not ok is left out. Only its status is kept.
- List entries are assumed to be objects. An `email`, `contacts` or `fieldValues` entry that is `null` or not an object makes the source throw a TypeError at `e.primary`, `contacts[0].id` or `field.field`, which is answered 500. `EmailEntry`, `Contact` and `FieldValue` cannot represent such an entry, so that path is not modelled.
- A `contacts` property that is present is assumed to be an array. A truthy non-array such as `{}` passes the emptiness test and then throws at `contacts[0].id`. The model has no such value, so `FirstContactId` never fails with `Malformed(ContactLookup)` on a delivered response.
- A `fetch` that rejects is not modelled. The source catches it and answers 500. A `Fetched` value always has a status, so this case can only be written as a non-2xx status, and the model then reports it as `Upstream(step, status)`.
- api/sync.js is not part of this model. It only checks required fields and calls the note endpoint with `parseInt`.
