/** The envelope-to-acknowledgement mapping that the category handlers share.
    A handler reads `id`, `event_type` and `content` from the parsed body,
    acknowledges with a warning when the nested entity is missing, logs some
    of its fields, echoes the identifiers, and turns anything thrown into a
    500 response. */
module Receipts {
  import opened Js
  import opened Http

  /** A value caught by a handler's `catch`: an `Error` instance with its
      message, or any other value. */
  datatype Thrown = ErrorInstance(message: string) | OtherValue

  /** The message of the TypeError a failed conversion to a primitive throws
      (the V8 wording). */
  const ConversionFailure: string := "Cannot convert object to primitive value"

  /** The `message` of the 500 response: the error's own message, or
      `Unknown error` when the thrown value is not an `Error`. */
  function MessageOf(thrown: Thrown): string {
    match thrown
    case ErrorInstance(message) => message
    case OtherValue => "Unknown error"
  }

  /** The `catch` branch. */
  function InternalError(thrown: Thrown): Outcome {
    ErrorWithMessage(500, "Internal server error", MessageOf(thrown))
  }

  /** The body of the 500 response when a logged value fails to convert. */
  const ConversionErrorBody: Body :=
    map["error" := JStr("Internal server error"), "message" := JStr(ConversionFailure)]

  /** `content?.<entity>` for the destructured `content` of the body. */
  function Nested(body: Body, entity: string): Option<Json> {
    Member(Field(body, "content"), entity)
  }

  /** One handler's `try`/`catch`, given the values that the branch chosen by
      `event_type` interpolates into its log lines. Nothing before the
      entity test can throw: the body is an already parsed object and `?.`
      guards the `content` lookup. After it, only the conversion of a logged
      value can throw, and `res.json` drops `undefined` properties. */
  function Acknowledge(body: Body, entity: string, idKey: string, warning: string, logged: seq<Option<Json>>): Outcome {
    var nested := Nested(body, entity);
    if !Truthy(nested) then
      Respond(200, map["received" := JBool(true), "warning" := JStr(warning)])
    else if AnyConversionThrows(logged) then
      InternalError(ErrorInstance(ConversionFailure))
    else
      var receipt := Put(Put(map["received" := JBool(true)], "event_id", Field(body, "id")), "event_type", Field(body, "event_type"));
      Respond(200, Put(receipt, idKey, Member(nested, "id")))
  }

  /** What an acknowledgement with identifiers looks like: `received: true`,
      the envelope's `id` and `event_type`, the entity's `id`, and nothing else. */
  ghost predicate IsReceipt(r: Body, body: Body, nested: Option<Json>, idKey: string) {
    && r.Keys <= {"received", "event_id", "event_type", idKey}
    && "received" in r && r["received"] == JBool(true)
    && Echoes(r, "event_id", Field(body, "id"))
    && Echoes(r, "event_type", Field(body, "event_type"))
    && Echoes(r, idKey, Member(nested, "id"))
  }

  /** Two bodies that differ at most in `event_type`. */
  ghost predicate SameButEventType(body1: Body, body2: Body) {
    body1 - {"event_type"} == body2 - {"event_type"}
  }

  /** When the logged values convert under both event types, the event type
      is only echoed back: changing it changes neither the status nor any
      other property of the acknowledgement. */
  lemma EventTypeOnlyEchoed(body1: Body, body2: Body, entity: string, idKey: string, warning: string,
                            logged1: seq<Option<Json>>, logged2: seq<Option<Json>>)
    requires SameButEventType(body1, body2) && idKey != "event_type"
    requires !AnyConversionThrows(logged1) && !AnyConversionThrows(logged2)
    ensures Acknowledge(body1, entity, idKey, warning, logged1).status == Acknowledge(body2, entity, idKey, warning, logged2).status
    ensures Acknowledge(body1, entity, idKey, warning, logged1).body - {"event_type"}
         == Acknowledge(body2, entity, idKey, warning, logged2).body - {"event_type"}
  {
    assert Field(body1, "content") == Field(body2, "content") by {
      assert "content" in body1 <==> "content" in body1 - {"event_type"};
      assert "content" in body2 <==> "content" in body2 - {"event_type"};
    }
    assert Field(body1, "id") == Field(body2, "id") by {
      assert "id" in body1 <==> "id" in body1 - {"event_type"};
      assert "id" in body2 <==> "id" in body2 - {"event_type"};
    }
  }
}
