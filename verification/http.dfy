/**
  The HTTP vocabulary shared by the handlers: request methods and the
  responses of outgoing `fetch` calls.
 */
module Http {
  import opened Js

  /** A verb other than the three the handlers name. */
  type OtherVerb = s: string | s != "GET" && s != "POST" && s != "OPTIONS" witness "PUT"

  /** The request method; `Other` covers every verb the handlers do not name. */
  datatype Method = Get | Post | Options | Other(name: OtherVerb)

  /** A response received from a remote API: its status code and its body
      as parsed JSON, `None` when the body is not JSON (an empty 204 body, say). */
  datatype Fetched<T> = Fetched(status: int, body: Option<T>) {
    /** The `ok` flag of a fetch response: a status in the 2xx range. */
    predicate Ok() {
      200 <= status <= 299
    }

    /** An ok response whose body parses: `response.json()` returns a value. */
    predicate Delivered() {
      Ok() && body.Some?
    }
  }
}
