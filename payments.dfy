/** The payment-event handler (`payment_succeeded`). */
module PaymentsHandler {
  import opened Js
  import opened Http
  import opened Receipts

  /** The values the branch chosen by `event_type` converts while logging:
      the transaction's id, customer id, amount (converted to a number for
      the division by 100), currency code and subscription id for
      `payment_succeeded`, the event type itself otherwise. */
  function PaymentLogged(eventType: Option<Json>, transaction: Option<Json>): seq<Option<Json>> {
    if eventType == Some(JStr("payment_succeeded")) then
      [Member(transaction, "id"), Member(transaction, "customer_id"), Member(transaction, "amount"),
       Member(transaction, "currency_code"), Member(transaction, "subscription_id")]
    else
      [eventType]
  }

  /** `handlePaymentsWebhook`: answers 200 or 500, never a 4xx status. */
  function HandlePaymentsWebhook(body: Body): (r: Outcome)
    ensures r.Respond? && (r.status == 200 || r.status == 500)
    // no transaction object: a warning and no identifiers, whatever else the envelope holds
    ensures !Truthy(Nested(body, "transaction")) ==>
      r.body == map["received" := JBool(true), "warning" := JStr("No transaction data")]
    // 500 exactly when a transaction is present and a logged value fails to convert
    ensures r.status == 500 <==>
      Truthy(Nested(body, "transaction")) &&
      AnyConversionThrows(PaymentLogged(Field(body, "event_type"), Nested(body, "transaction")))
    ensures r.status == 500 ==> r.body == ConversionErrorBody
    // otherwise the identifiers, whatever the event type
    ensures r.status == 200 && Truthy(Nested(body, "transaction")) ==>
      IsReceipt(r.body, body, Nested(body, "transaction"), "transaction_id")
  {
    var transaction := Nested(body, "transaction");
    Acknowledge(body, "transaction", "transaction_id", "No transaction data", PaymentLogged(Field(body, "event_type"), transaction))
  }

  /** When the logged values convert under both event types,
      `payment_succeeded` and unhandled event types get the same
      acknowledgement, up to the echoed `event_type`. */
  lemma PaymentsEventTypeOnlyEchoed(body1: Body, body2: Body)
    requires SameButEventType(body1, body2)
    requires !AnyConversionThrows(PaymentLogged(Field(body1, "event_type"), Nested(body1, "transaction")))
    requires !AnyConversionThrows(PaymentLogged(Field(body2, "event_type"), Nested(body2, "transaction")))
    ensures HandlePaymentsWebhook(body1).status == HandlePaymentsWebhook(body2).status
    ensures HandlePaymentsWebhook(body1).body - {"event_type"} == HandlePaymentsWebhook(body2).body - {"event_type"}
  {
    EventTypeOnlyEchoed(body1, body2, "transaction", "transaction_id", "No transaction data",
      PaymentLogged(Field(body1, "event_type"), Nested(body1, "transaction")),
      PaymentLogged(Field(body2, "event_type"), Nested(body2, "transaction")));
  }

  /** An amount that fails to convert makes `payment_succeeded` answer 500,
      since only that branch divides it by 100; another event type is
      acknowledged with 200. */
  lemma SucceededPaymentCanFail()
    ensures
      var transaction := JObj(map["id" := JStr("txn_1"), "amount" := JArr([JObj(map["toString" := JNull])])]);
      var content := JObj(map["transaction" := transaction]);
      HandlePaymentsWebhook(map["event_type" := JStr("payment_succeeded"), "content" := content])
        == Respond(500, ConversionErrorBody) &&
      HandlePaymentsWebhook(map["event_type" := JStr("payment_failed"), "content" := content])
        == Respond(200, map["received" := JBool(true), "event_type" := JStr("payment_failed"), "transaction_id" := JStr("txn_1")])
  {
    var transaction := JObj(map["id" := JStr("txn_1"), "amount" := JArr([JObj(map["toString" := JNull])])]);
    var logged := PaymentLogged(Some(JStr("payment_succeeded")), Some(transaction));
    var item := JObj(map["toString" := JNull]);
    assert ConversionThrows(item) && [item][0] == item;
    assert logged[2].Some? && ConversionThrows(logged[2].value);
  }

  /** A `payment_succeeded` event is acknowledged with its transaction id. */
  lemma PaymentSucceededAcknowledged()
    ensures
      var transaction := JObj(map["id" := JStr("txn_1"), "customer_id" := JStr("cus_1"), "amount" := JNum(1999.0),
                                  "currency_code" := JStr("USD"), "subscription_id" := JStr("sub_1")]);
      var body := map["id" := JStr("evt_2"), "event_type" := JStr("payment_succeeded"), "content" := JObj(map["transaction" := transaction])];
      HandlePaymentsWebhook(body) ==
        Respond(200, map["received" := JBool(true), "event_id" := JStr("evt_2"), "event_type" := JStr("payment_succeeded"), "transaction_id" := JStr("txn_1")])
  {
  }
}
