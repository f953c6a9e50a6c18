/** The customer-event handler (`customer_created`, `customer_changed`). */
module CustomerHandler {
  import opened Js
  import opened Http
  import opened Receipts

  /** The values the branch of the `switch` chosen by `event_type` puts into
      template literals: id, email and both names for `customer_created`,
      id and email for `customer_changed`, the event type itself otherwise. */
  function CustomerLogged(eventType: Option<Json>, customer: Option<Json>): seq<Option<Json>> {
    if eventType == Some(JStr("customer_created")) then
      [Member(customer, "id"), Member(customer, "email"), Member(customer, "first_name"), Member(customer, "last_name")]
    else if eventType == Some(JStr("customer_changed")) then
      [Member(customer, "id"), Member(customer, "email")]
    else
      [eventType]
  }

  /** `handleCustomerWebhook`: answers 200 or 500, never a 4xx status. */
  function HandleCustomerWebhook(body: Body): (r: Outcome)
    ensures r.Respond? && (r.status == 200 || r.status == 500)
    // no customer object: a warning and no identifiers, whatever else the envelope holds
    ensures !Truthy(Nested(body, "customer")) ==>
      r.body == map["received" := JBool(true), "warning" := JStr("No customer data")]
    // 500 exactly when a customer is present and a logged value fails to convert
    ensures r.status == 500 <==>
      Truthy(Nested(body, "customer")) &&
      AnyConversionThrows(CustomerLogged(Field(body, "event_type"), Nested(body, "customer")))
    ensures r.status == 500 ==> r.body == ConversionErrorBody
    // otherwise the identifiers, whatever the event type
    ensures r.status == 200 && Truthy(Nested(body, "customer")) ==>
      IsReceipt(r.body, body, Nested(body, "customer"), "customer_id")
  {
    var customer := Nested(body, "customer");
    Acknowledge(body, "customer", "customer_id", "No customer data", CustomerLogged(Field(body, "event_type"), customer))
  }

  /** When the logged values convert under both event types, known and
      unknown event types get the same acknowledgement, up to the echoed
      `event_type`. */
  lemma CustomerEventTypeOnlyEchoed(body1: Body, body2: Body)
    requires SameButEventType(body1, body2)
    requires !AnyConversionThrows(CustomerLogged(Field(body1, "event_type"), Nested(body1, "customer")))
    requires !AnyConversionThrows(CustomerLogged(Field(body2, "event_type"), Nested(body2, "customer")))
    ensures HandleCustomerWebhook(body1).status == HandleCustomerWebhook(body2).status
    ensures HandleCustomerWebhook(body1).body - {"event_type"} == HandleCustomerWebhook(body2).body - {"event_type"}
  {
    EventTypeOnlyEchoed(body1, body2, "customer", "customer_id", "No customer data",
      CustomerLogged(Field(body1, "event_type"), Nested(body1, "customer")),
      CustomerLogged(Field(body2, "event_type"), Nested(body2, "customer")));
  }

  /** The event type can decide the status: a first name that fails to
      convert makes `customer_created` answer 500, because only that branch
      logs the name, while `customer_changed` acknowledges with 200. */
  lemma EventTypeDecidesFailure()
    ensures
      var customer := JObj(map["id" := JStr("c"), "first_name" := JObj(map["toString" := JNum(0.0)])]);
      var content := JObj(map["customer" := customer]);
      HandleCustomerWebhook(map["event_type" := JStr("customer_created"), "content" := content])
        == Respond(500, ConversionErrorBody) &&
      HandleCustomerWebhook(map["event_type" := JStr("customer_changed"), "content" := content])
        == Respond(200, map["received" := JBool(true), "event_type" := JStr("customer_changed"), "customer_id" := JStr("c")])
  {
    var customer := JObj(map["id" := JStr("c"), "first_name" := JObj(map["toString" := JNum(0.0)])]);
    var logged := CustomerLogged(Some(JStr("customer_created")), Some(customer));
    assert logged[2].Some? && ConversionThrows(logged[2].value);
  }

  /** A `customer_created` event with a customer object is acknowledged with
      its event and customer identifiers. */
  lemma CustomerCreatedAcknowledged()
    ensures
      var customer := JObj(map["id" := JStr("cus_1"), "email" := JStr("a@b.com"), "first_name" := JStr("A"), "last_name" := JStr("B")]);
      var body := map["id" := JStr("evt_1"), "event_type" := JStr("customer_created"), "content" := JObj(map["customer" := customer])];
      HandleCustomerWebhook(body) ==
        Respond(200, map["received" := JBool(true), "event_id" := JStr("evt_1"), "event_type" := JStr("customer_created"), "customer_id" := JStr("cus_1")])
  {
  }

  /** An envelope whose content is empty is still acknowledged, with a warning. */
  lemma EmptyContentAcknowledged()
    ensures
      var body := map["id" := JStr("evt_1"), "event_type" := JStr("customer_created"), "content" := JObj(map[])];
      HandleCustomerWebhook(body) == Respond(200, map["received" := JBool(true), "warning" := JStr("No customer data")])
  {
  }
}
