/** What a middleware or a route handler does with one request: either it
    calls `next()` and passes the request on, or it sends exactly one JSON
    response. One value of `Outcome` is one of the two, never both. */
module Http {
  import opened Js

  type Body = map<string, Json>

  datatype Outcome = Next | Respond(status: int, body: Body)

  /** `res.json(...)` drops properties whose value is `undefined`. */
  function Put(body: Body, key: string, v: Option<Json>): Body {
    match v
    case Some(x) => body[key := x]
    case None => body
  }

  /** True when the response body carries `v` under `key` exactly as
      `res.json` serialises it: absent when `v` is `undefined`. */
  ghost predicate Echoes(body: Body, key: string, v: Option<Json>) {
    (key in body <==> v.Some?) && (v.Some? ==> body[key] == v.value)
  }

  /** `{error}` with a fixed status. */
  function Error(status: int, error: string): Outcome {
    Respond(status, map["error" := JStr(error)])
  }

  /** `{error, message}` with a fixed status. */
  function ErrorWithMessage(status: int, error: string, message: string): Outcome {
    Respond(status, map["error" := JStr(error), "message" := JStr(message)])
  }

  /** Two middleware in sequence: the second runs only if the first calls `next()`. */
  function Then(first: Outcome, second: Outcome): Outcome {
    if first.Next? then second else first
  }
}
