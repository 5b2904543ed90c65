/**
  The per-contact sync-state endpoint (api/status.js): a POST merges the
  supplied fields into the record stored under a phone number, a GET reads
  that record back. The key-value store is a map from the phone number,
  used verbatim as the key, to the stored record.
 */
module SyncStatus {
  import opened Js
  import opened Http

  /** The stored sync state of one contact. A field holding `Undefined`
      is a key the stored JSON object does not have. */
  datatype Record = Record(
    dealId: Value,
    lastMessageIdentifier: Value,
    syncedBy: Value,
    lastSyncTimestamp: Value)

  /** The object `{}` the merge starts from when nothing is stored. */
  const Empty := Record(Undefined, Undefined, Undefined, Undefined)

  /** The fields a POST body may carry besides the phone number;
      `Undefined` marks a field the caller did not supply. */
  datatype Patch = Patch(dealId: Value, lastMessageIdentifier: Value, syncedBy: Value)

  type Store = map<string, Record>

  /** The parts of a request the handler reads; a phone number is `None`
      when the body or the query string does not carry it. */
  datatype PostBody = PostBody(phoneNumber: Option<string>, patch: Patch)
  datatype Request = Request(verb: Method, body: PostBody, queryPhone: Option<string>)

  /** What the handler answers, one constructor per `response.status(..)` call. */
  datatype Reply =
    | Preflight                 // OPTIONS: empty 200
    | Saved(data: Record)       // POST: { success: true, data }
    | Found(data: Record)       // GET: the stored record itself
    | MissingPhone              // no usable phoneNumber
    | NotFound                  // GET of a key with nothing stored
    | StoreFault                // a key-value call threw
    | MethodNotAllowed
  datatype Response = Response(status: int, reply: Reply)

  /** The storage key named by a phone number that passes `if (!phoneNumber)`. */
  function Key(phone: Option<string>): (k: Option<string>)
    ensures k.Some? <==> phone.Some? && Truthy(Str(phone.value))
    ensures k.Some? ==> k.value == phone.value
  {
    if phone.Some? && phone.value != "" then phone else None
  }

  /** `kv.get(key) || {}`: the stored record, or the empty object. */
  function Existing(store: Store, key: string): (r: Record)
    ensures key !in store ==> r == Empty
    ensures key in store ==> r == store[key]
  {
    if key in store then store[key] else Empty
  }

  /** The copy `{ ...existing }` with every supplied field written over it;
      supplying `syncedBy` also stamps `lastSyncTimestamp` with `now`. */
  function Merge(prior: Record, p: Patch, now: string): (r: Record)
    ensures p.dealId != Undefined ==> r.dealId == p.dealId
    ensures p.dealId == Undefined ==> r.dealId == prior.dealId
    ensures p.lastMessageIdentifier != Undefined ==> r.lastMessageIdentifier == p.lastMessageIdentifier
    ensures p.lastMessageIdentifier == Undefined ==> r.lastMessageIdentifier == prior.lastMessageIdentifier
    ensures p.syncedBy != Undefined ==> r.syncedBy == p.syncedBy && r.lastSyncTimestamp == Str(now)
    ensures p.syncedBy == Undefined ==> r.syncedBy == prior.syncedBy && r.lastSyncTimestamp == prior.lastSyncTimestamp
  {
    var r1 := if p.dealId != Undefined then prior.(dealId := p.dealId) else prior;
    var r2 := if p.lastMessageIdentifier != Undefined then r1.(lastMessageIdentifier := p.lastMessageIdentifier) else r1;
    if p.syncedBy != Undefined then r2.(syncedBy := p.syncedBy, lastSyncTimestamp := Str(now)) else r2
  }

  /** The request handler. `now` is the ISO time the handler would read from
      the clock; `kvFault` says that a key-value call throws. It returns the
      response and the store afterwards. */
  function Handle(store: Store, req: Request, now: string, kvFault: bool): (out: (Response, Store))
    ensures req.verb == Options ==> out == (Response(200, Preflight), store)
    ensures req.verb.Other? ==> out == (Response(405, MethodNotAllowed), store)
    ensures out.0.status == 400 <==>
              || (req.verb == Post && Key(req.body.phoneNumber).None?)
              || (req.verb == Get && Key(req.queryPhone).None?)
    ensures out.0.status == 400 ==> out.0.reply == MissingPhone
    ensures out.0.status == 500 <==>
              && kvFault
              && ((req.verb == Post && Key(req.body.phoneNumber).Some?) || (req.verb == Get && Key(req.queryPhone).Some?))
    ensures out.1 != store ==> req.verb == Post && out.0.status == 200
    ensures forall k :: k in store && Some(k) != req.body.phoneNumber ==> k in out.1 && out.1[k] == store[k]
    ensures forall k :: k in out.1 && Some(k) != req.body.phoneNumber ==> k in store
  {
    match req.verb
    case Options => (Response(200, Preflight), store)
    case Post =>
      var key := Key(req.body.phoneNumber);
      if key.None? then (Response(400, MissingPhone), store)
      else if kvFault then (Response(500, StoreFault), store)
      else
        var merged := Merge(Existing(store, key.value), req.body.patch, now);
        (Response(200, Saved(merged)), store[key.value := merged])
    case Get =>
      var key := Key(req.queryPhone);
      if key.None? then (Response(400, MissingPhone), store)
      else if kvFault then (Response(500, StoreFault), store)
      else if key.value !in store then (Response(404, NotFound), store)
      else (Response(200, Found(store[key.value])), store)
    case Other(_) => (Response(405, MethodNotAllowed), store)
  }

  // ---------------------------------------------------------------------
  // The record as a JavaScript object

  /** The property names a stored record can have. */
  const Names: set<string> := {"dealId", "lastMessageIdentifier", "syncedBy", "lastSyncTimestamp"}

  /** `record[name]`: the field a property name denotes, `undefined` for any other name. */
  function Field(r: Record, name: string): Value {
    if name == "dealId" then r.dealId
    else if name == "lastMessageIdentifier" then r.lastMessageIdentifier
    else if name == "syncedBy" then r.syncedBy
    else if name == "lastSyncTimestamp" then r.lastSyncTimestamp
    else Undefined
  }

  /** The record as the JSON object the store holds: one property per defined field. */
  function AsObject(r: Record): map<string, Value> {
    map k | k in Names && Field(r, k) != Undefined :: Field(r, k)
  }

  /** Reading a property back from an object; a missing property reads as `undefined`. */
  function Lookup(o: map<string, Value>, name: string): Value {
    if name in o then o[name] else Undefined
  }

  /** The record a stored JSON object denotes. */
  function FromObject(o: map<string, Value>): Record {
    Record(Lookup(o, "dealId"), Lookup(o, "lastMessageIdentifier"),
           Lookup(o, "syncedBy"), Lookup(o, "lastSyncTimestamp"))
  }

  /** The value a POST assigns to property `name`, or `undefined` if it assigns none:
      each supplied field is assigned, and `syncedBy` brings the timestamp along. */
  function Written(p: Patch, now: string, name: string): Value {
    if name == "dealId" then p.dealId
    else if name == "lastMessageIdentifier" then p.lastMessageIdentifier
    else if name == "syncedBy" then p.syncedBy
    else if name == "lastSyncTimestamp" then (if p.syncedBy != Undefined then Str(now) else Undefined)
    else Undefined
  }

  /** The properties a POST assigns onto the copied object. */
  function Assigned(p: Patch, now: string): map<string, Value> {
    map k | k in Names && Written(p, now, k) != Undefined :: Written(p, now, k)
  }

  /** Storing a record as an object and reading it back loses nothing. */
  lemma ObjectRoundTrip(r: Record)
    ensures FromObject(AsObject(r)) == r
  {
  }

  /** The merge is the object spread `{ ...existing, ...assigned }`: every
      property of the stored object survives unless a supplied field
      replaces it, and nothing beyond the assigned properties is added. */
  lemma MergeIsSpread(prior: Record, p: Patch, now: string)
    ensures AsObject(Merge(prior, p, now)) == AsObject(prior) + Assigned(p, now)
  {
    var lhs := AsObject(Merge(prior, p, now));
    var rhs := AsObject(prior) + Assigned(p, now);
    forall k
      ensures (k in lhs <==> k in rhs) && (k in lhs ==> lhs[k] == rhs[k])
    {
      MergeField(prior, p, now, k);
    }
  }

  /** An upsert on a key with nothing stored yields exactly the assigned properties. */
  lemma UpsertFromEmpty(store: Store, key: string, p: Patch, now: string)
    requires key !in store
    ensures AsObject(Merge(Existing(store, key), p, now)) == Assigned(p, now)
  {
  }

  /** A merge never deletes a property of the stored object. */
  lemma MergeKeepsProperties(prior: Record, p: Patch, now: string)
    ensures AsObject(prior).Keys <= AsObject(Merge(prior, p, now)).Keys
  {
  }

  /** Applying the same fields twice is applying them once; only the
      timestamp of the later application remains. */
  lemma MergeIdempotent(prior: Record, p: Patch, t1: string, t2: string)
    ensures Merge(Merge(prior, p, t1), p, t2) == Merge(prior, p, t2)
  {
  }

  /** Two patches that supply disjoint fields, each stamped with its own time,
      can be applied in either order. */
  lemma DisjointPatchesCommute(prior: Record, p: Patch, q: Patch, tp: string, tq: string)
    requires p.dealId == Undefined || q.dealId == Undefined
    requires p.lastMessageIdentifier == Undefined || q.lastMessageIdentifier == Undefined
    requires p.syncedBy == Undefined || q.syncedBy == Undefined
    ensures Merge(Merge(prior, p, tp), q, tq) == Merge(Merge(prior, q, tq), p, tp)
  {
  }

  /** Upserting `{ dealId: x }` and then `{ lastMessageIdentifier: y }` keeps both. */
  lemma FieldIsolation(prior: Record, x: Value, y: Value, t1: string, t2: string)
    requires x != Undefined && y != Undefined
    ensures var r := Merge(Merge(prior, Patch(x, Undefined, Undefined), t1), Patch(Undefined, y, Undefined), t2);
            r.dealId == x && r.lastMessageIdentifier == y
            && r.syncedBy == prior.syncedBy && r.lastSyncTimestamp == prior.lastSyncTimestamp
  {
  }

  /** One POST, field by field: a property takes the value the POST assigns
      to it, if any, and otherwise keeps its stored value. */
  lemma MergeField(prior: Record, p: Patch, now: string, name: string)
    ensures Field(Merge(prior, p, now), name)
              == if Written(p, now, name) != Undefined then Written(p, now, name) else Field(prior, name)
  {
  }

  /** The record after a series of POSTs to one key, each with its own time, oldest first. */
  function Replay(prior: Record, posts: seq<(Patch, string)>): Record
  {
    if |posts| == 0 then prior
    else
      var last := posts[|posts| - 1];
      Merge(Replay(prior, posts[..|posts| - 1]), last.0, last.1)
  }

  /** The value the latest POST that assigns property `name` gives it, or
      `undefined` when none of them does. */
  function LastWritten(posts: seq<(Patch, string)>, name: string): Value
  {
    if |posts| == 0 then Undefined
    else
      var last := posts[|posts| - 1];
      var w := Written(last.0, last.1, name);
      if w != Undefined then w else LastWritten(posts[..|posts| - 1], name)
  }

  /** After any series of POSTs each property holds the value of the latest
      POST that assigned it, or its original value when none did: updates to
      different fields never clobber each other. */
  lemma {:induction false} ReplayLatestWins(prior: Record, posts: seq<(Patch, string)>, name: string)
    ensures Field(Replay(prior, posts), name)
              == if LastWritten(posts, name) != Undefined then LastWritten(posts, name) else Field(prior, name)
  {
    if |posts| > 0 {
      var last := posts[|posts| - 1];
      ReplayLatestWins(prior, posts[..|posts| - 1], name);
      MergeField(Replay(prior, posts[..|posts| - 1]), last.0, last.1, name);
    }
  }

  // ---------------------------------------------------------------------
  // The handler over the store

  /** A POST with a phone number stores the merged record under that number,
      answers with it, and leaves every other key as it was. */
  lemma PostUpserts(store: Store, phone: string, p: Patch, now: string)
    requires phone != ""
    ensures var out := Handle(store, Request(Post, PostBody(Some(phone), p), None), now, false);
            && out.0 == Response(200, Saved(Merge(Existing(store, phone), p, now)))
            && phone in out.1 && out.1[phone] == out.0.reply.data
            && out.1.Keys == store.Keys + {phone}
            && forall k :: k in store && k != phone ==> out.1[k] == store[k]
  {
  }

  /** A GET never changes the store; it answers 404 exactly when nothing is
      stored under the number and otherwise returns the stored record unchanged. */
  lemma GetReads(store: Store, phone: string, body: PostBody, now: string)
    requires phone != ""
    ensures var out := Handle(store, Request(Get, body, Some(phone)), now, false);
            && out.1 == store
            && (out.0.status == 404 <==> phone !in store)
            && (phone in store ==> out.0 == Response(200, Found(store[phone])))
  {
  }

  /** A missing or empty phone number is refused with 400 on both methods,
      whatever else the request carries, and the store is untouched. */
  lemma MissingPhoneRejected(store: Store, m: Method, body: PostBody, query: Option<string>, now: string, kvFault: bool)
    requires m == Post || m == Get
    requires m == Post ==> Key(body.phoneNumber).None?
    requires m == Get ==> Key(query).None?
    ensures Handle(store, Request(m, body, query), now, kvFault) == (Response(400, MissingPhone), store)
  {
  }

  /** Reading after writing returns what the write answered. */
  lemma PostThenGet(store: Store, phone: string, p: Patch, now: string, body: PostBody, later: string)
    requires phone != ""
    ensures var w := Handle(store, Request(Post, PostBody(Some(phone), p), None), now, false);
            var r := Handle(w.1, Request(Get, body, Some(phone)), later, false);
            r == (Response(200, Found(w.0.reply.data)), w.1)
  {
  }

  /** Sending the same POST twice leaves the store as a single POST at the
      later time would. */
  lemma RepeatedPost(store: Store, phone: string, p: Patch, t1: string, t2: string)
    requires phone != ""
    ensures var req := Request(Post, PostBody(Some(phone), p), None);
            Handle(Handle(store, req, t1, false).1, req, t2, false) == Handle(store, req, t2, false)
  {
    MergeIdempotent(Existing(store, phone), p, t1, t2);
    var m1 := Merge(Existing(store, phone), p, t1);
    var m2 := Merge(Existing(store, phone), p, t2);
    assert store[phone := m1][phone := m2] == store[phone := m2];
  }
}
