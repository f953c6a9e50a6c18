# Webhook receiver for billing events: a Dafny model

This project models a small HTTP service that receives billing-provider
webhooks forwarded by a delivery relay. Every request under `/webhooks` must
pass two middleware before it reaches a handler:

1. The relay-signature verifier (`verifyHookdeckSignature`). It checks, in
   order, that the shared secret is configured, that the primary
   `x-hookdeck-signature` header is present and that the raw body was
   captured. It then checks that base64(HMAC-SHA256(secret, raw body))
   equals the primary header or, for key rotation, the optional secondary
   header `x-hookdeck-signature-2`.
2. The Basic-Authentication verifier (`verifyChargebeeAuth`). It requires a
   `Basic ` prefix and takes the token with `split(' ')[1]`. It decodes the
   token from base64, splits the decoded text with `split(':')` and compares
   the first two fields with the configured username and password.

Three POST routes follow: customer, subscription and payments. The customer
and payments handlers acknowledge an envelope `{id, event_type, content}`
with 200. The acknowledgement carries a warning when the nested entity is
missing, and the identifiers otherwise. In between, the branch chosen by
`event_type` interpolates some fields into log lines. Interpolating a parsed
object that has its own `toString` key throws a TypeError, and the handler's
`catch` turns that into a 500. The model derives this failure from the
envelope (`Js.ConversionThrows`), so the event type can decide the status.
`GET /health` answers without authentication.

Each middleware and handler is a pure function that returns
`Outcome = Next | Respond(status, body)`. A value of this type is either
"call `next()`" or one JSON response, never both. So "exactly one outcome on
every path" holds by construction. JavaScript truthiness is explicit:

- An environment variable or header is an `Option<string>`. Both `None` and
  `Some("")` count as unset (`Js.IsSet`).
- Parsed JSON values use `Js.Truthy`.

The HMAC digest and the base64 decoder are library code. They are parameters
(`HookdeckAuth.Digest`, `ChargebeeAuth.Decoder`), so every proof holds for
every such function.

Modules and files:

- `js.dfy` (`Js`): options, JSON values and truthiness.
- `http.dfy` (`Http`): outcomes and response bodies.
- `text.dfy` (`Text`): JavaScript `split` and `join`.
- `hookdeck_auth.dfy`, `chargebee_auth.dfy`: the two verifiers.
- `receipts.dfy` (`Receipts`): the acknowledgement logic both handlers share.
- `customer.dfy`, `payments.dfy`: the two handlers.
- `app.dfy` (`App`): the route table and the middleware order.

Two behaviours of the credential verifier are easy to get wrong:

- It splits the decoded text on every colon and keeps the first two fields
  (src/middleware/chargebee-auth.ts:24). Section 2 of RFC 7617 asks for a
  split on the first colon only, so that a password containing a colon is
  recovered. The model follows the code; see Findings.
- It checks the header before the configuration
  (src/middleware/chargebee-auth.ts:16-33). A missing or non-`Basic` header
  gives 401 even when the expected username or password is unset; only a
  well-formed header reaches the 500 for an incomplete configuration.
  `ChargebeeAuth.VerifyChargebeeAuth` states this.

## Model

| member | source | states |
|---|---|---|
| `Text.Split` | src/middleware/chargebee-auth.ts:24 | `split` with a one-character separator gives exactly one more field than there are separators (never an empty array) |
| `Text.JoinSplit` | src/middleware/chargebee-auth.ts:24 | joining the fields of a split with the separator gives the original text back: no character is lost or invented |
| `Text.SplitJoin` | src/middleware/chargebee-auth.ts:24 | splitting the join of separator-free fields gives those fields back |
| `Text.SplitFieldsExcludeSeparator` | src/middleware/chargebee-auth.ts:24 | no field of a split contains the separator |
| `Text.SplitAfterField` | src/middleware/chargebee-auth.ts:22 | a separator-free field followed by the separator splits off as the first field, and the rest is split on its own |
| `Text.FirstFieldIsPrefix` | src/middleware/chargebee-auth.ts:22 | the first field is the longest separator-free prefix: it ends at the first separator or at the end of the text |
| `HookdeckAuth.VerifyHookdeckSignature` | src/middleware/hookdeck-auth.ts:16-56 | the checks run in order: an unset secret gives 500 whatever the request; a missing primary header gives 401, before a missing raw body (500), even when the secondary header is present; the result is `Next` exactly when the digest of the raw bytes equals the primary header or a non-empty secondary header; every other case gives 403 `Invalid signature` |
| `HookdeckAuth.RotationAccepted` | src/middleware/hookdeck-auth.ts:48-51 | a stale primary signature together with a matching secondary signature is accepted |
| `HookdeckAuth.DigestIsTheOnlyDependency` | src/middleware/hookdeck-auth.ts:43-49 | the outcome depends on the raw body only through its digest: two raw bodies with the same digest get the same outcome |
| `HookdeckAuth.AlteredBodyRejected` | src/middleware/hookdeck-auth.ts:43-55 | a body signed by the relay is accepted, and a body whose digest differs is refused with 403 |
| `ChargebeeAuth.Token` | src/middleware/chargebee-auth.ts:22 | the token is the text after `Basic ` up to the next space or the end of the header, and holds no space |
| `ChargebeeAuth.TokenIgnoresTrailingText` | src/middleware/chargebee-auth.ts:22 | anything after a second space in the header is ignored |
| `ChargebeeAuth.ParseCredentials` | src/middleware/chargebee-auth.ts:23-24 | the username is the text before the first colon, or all of it when there is no colon, and then the password is undefined; otherwise the password is the colon-free text up to the end or up to a second colon, after which text is discarded |
| `ChargebeeAuth.VerifyChargebeeAuth` | src/middleware/chargebee-auth.ts:13-42 | a missing or non-`Basic ` header gives 401 `Missing credentials` before the configuration is looked at; a well-formed header with an unset expected username or password gives 500; otherwise the result is `Next` exactly when both decoded fields equal the configured values, and 401 `Invalid credentials` when they do not |
| `ChargebeeAuth.ParseJoined` | src/middleware/chargebee-auth.ts:24 | `user:password`, possibly followed by a colon and any text, parses to that user and password when both are colon-free |
| `ChargebeeAuth.AcceptedDecodedTexts` | src/middleware/chargebee-auth.ts:24-35 | the decoded texts that authenticate are exactly `user:password` and `user:password:<anything>`, and none does when a configured value contains a colon |
| `ChargebeeAuth.ClientRoundTrip` | src/middleware/chargebee-auth.ts:22-37 | a client that sends `Basic base64(user:password)` with the configured credentials is admitted exactly when the password has no colon |
| `ChargebeeAuth.ParseCredentialsFirstColon` | src/middleware/chargebee-auth.ts:24 | corrected split: the username is the colon-free text before the first colon, and the password is all the rest, so `user:password` is reassembled exactly |
| `ChargebeeAuth.FirstColonRoundTrip` | src/middleware/chargebee-auth.ts:24 | corrected split: decoding `user:password` gives both parts back for every password |
| `ChargebeeAuth.FirstColonMatch` | src/middleware/chargebee-auth.ts:24 | corrected split: the result is `(user, password)` exactly when the text is `user:password` with a colon-free user |
| `ChargebeeAuth.ParsersAgreeOnOneColon` | src/middleware/chargebee-auth.ts:24 | on text with at most one colon, the corrected split and the code's split agree |
| `ChargebeeAuth.VerifyChargebeeAuthFirstColon` | src/middleware/chargebee-auth.ts:13-42 | the verifier with the corrected split: same check order and responses; it accepts exactly when the decoded text is `user:password` for the configured pair |
| `ChargebeeAuth.ClientRoundTripFirstColon` | src/middleware/chargebee-auth.ts:22-37 | with the corrected split, every client holding the configured credentials is admitted, including one whose password contains colons |
| `Receipts.EventTypeOnlyEchoed` | src/handlers/customer.ts:32-55 | when the values logged under each of two event types all convert to strings, the event type is only echoed back: two envelopes that differ only in `event_type` get the same status and the same acknowledgement apart from that field |
| `CustomerHandler.HandleCustomerWebhook` | src/handlers/customer.ts:12-63 | the status is 200 or 500, never 4xx; an absent or falsy `content.customer` always gives `{received: true, warning: 'No customer data'}`; the status is 500 exactly when a customer is present and one of the values the chosen `switch` branch logs (id, email and names for `customer_created`, id and email for `customer_changed`, the event type otherwise) fails to convert, and the body is then `{error: 'Internal server error', message}` with the TypeError's message; otherwise the body holds `received: true`, `event_id`, `event_type` and `customer_id` and nothing else |
| `CustomerHandler.CustomerEventTypeOnlyEchoed` | src/handlers/customer.ts:32-55 | when the logged values convert under both event types, `customer_created`, `customer_changed` and unknown event types get the same acknowledgement, up to the echoed type |
| `CustomerHandler.EventTypeDecidesFailure` | src/handlers/customer.ts:32-62 | a first name `{"toString": 0}` makes `customer_created` answer 500 (only that branch logs the name) while `customer_changed` answers 200 with the customer id |
| `CustomerHandler.CustomerCreatedAcknowledged` | src/handlers/customer.ts:50-55 | a `customer_created` envelope for customer `cus_1` is acknowledged with `event_id`, `event_type` and `customer_id` |
| `CustomerHandler.EmptyContentAcknowledged` | src/handlers/customer.ts:23-28 | an envelope with empty `content` gets 200 and a warning |
| `PaymentsHandler.HandlePaymentsWebhook` | src/handlers/payments.ts:12-57 | the status is 200 or 500, never 4xx; an absent or falsy `content.transaction` always gives `{received: true, warning: 'No transaction data'}`; the status is 500 exactly when a transaction is present and a logged value (its id, customer id, amount, currency code and subscription id for `payment_succeeded`, the event type otherwise) fails to convert, with body `{error: 'Internal server error', message}`; otherwise the body holds `received: true`, `event_id`, `event_type` and `transaction_id` and nothing else |
| `PaymentsHandler.PaymentsEventTypeOnlyEchoed` | src/handlers/payments.ts:31-49 | when the logged values convert under both event types, `payment_succeeded` and unhandled event types get the same acknowledgement, up to the echoed type |
| `PaymentsHandler.SucceededPaymentCanFail` | src/handlers/payments.ts:32-56 | an amount `[{"toString": null}]` makes `payment_succeeded` answer 500, because only that branch divides the amount by 100, while another event type answers 200 |
| `PaymentsHandler.PaymentSucceededAcknowledged` | src/handlers/payments.ts:44-49 | a `payment_succeeded` envelope for transaction `txn_1` is acknowledged with its `transaction_id` |
| `App.RouteOf` | src/index.ts:30-32 | exactly three POST paths have a handler, each bound to one category, and all of them lie below the `/webhooks` mount |
| `App.AllowList` | src/index.ts:23-32 | the methods the framework lists for `OPTIONS`: `GET,HEAD` on the health path, `POST` on each of the three webhook paths, nothing elsewhere |
| `App.HandleRequest` | src/index.ts:23-32 | every request gets a response; `GET /health` answers without a verifier, and so does the framework's 200 to `OPTIONS /health`; below `/webhooks`, a signature rejection is final, then a credential rejection is final; only after both pass does the route table pick the handler; then an `OPTIONS` request on a webhook path gets the framework's 200, and any other unrouted request gets 404 |
| `App.SignatureIgnoresParsedBody` | src/index.ts:28 | in the pipeline, the signature verifier's outcome does not change with the parsed body, or the `Authorization` header |
| `App.HandlersRequireAuthentication` | src/index.ts:28-32 | unless both verifiers pass, no handler runs: the response does not depend on the handler and, on a routed path, it is one of the verifiers' rejections |
| `App.MissingAuthorizationRejected` | src/index.ts:28 | a webhook request without an `Authorization` header gets the signature rejection or 401 `Missing credentials`, so its status is 401, 403 or 500 |
| `App.ForgedSignatureWithoutCredentials` | src/index.ts:28 | a bad signature with no `Authorization` header gets 403, not 401 |
| `App.HealthIsUnauthenticated` | src/index.ts:23-25 | `GET /health` gives 200 `{status: 'ok', message: 'Server is running'}` whatever the configuration and headers |
| `App.UnknownPathNotFound` | src/index.ts:23-32 | a path that is neither the health check nor below `/webhooks` gets 404 without any verifier |

## Findings

| source | as written | input that shows it | evidently intended | confidence | as-written member | corrected member |
|---|---|---|---|---|---|---|
| src/middleware/chargebee-auth.ts:24 | `credentials.split(':')` splits on every colon and keeps only the first two fields, so a password containing a colon is cut at its first colon | configured password `pa:ss`, with a client sending `Basic base64("merchant:pa:ss")`: the password field is `pa`, and the request gets 401 | split on the first colon only, as section 2 of RFC 7617 prescribes (the user-id cannot contain a colon, the password can) | medium, not executed | `ChargebeeAuth.ClientRoundTrip` | `ChargebeeAuth.ClientRoundTripFirstColon` |

The dispatch pipeline (`App.HandleRequest`) uses the verifier as written,
because that is what the service runs. `ChargebeeAuth.VerifyChargebeeAuthFirstColon`
is a drop-in replacement with the same signature.
`ChargebeeAuth.ParsersAgreeOnOneColon` shows that the two parsers differ only
on decoded text with two or more colons.

## Left out

- HMAC-SHA256 and base64 encoding and decoding are library calls. They are
  parameters of the model, so no property of the hash (such as collision
  resistance) is assumed. `HookdeckAuth.AlteredBodyRejected` therefore takes
  "the digests differ" as a hypothesis.
- The text of the log lines (`console.*`) and the timestamps are not
  modelled, nor is the value of the payment amount divided by 100 (floating
  point). What the model keeps of logging is whether converting a logged value
  throws. `console.log` with separate arguments does not convert them, and
  Node's console ignores write errors, so nothing else in a `try` block can
  throw.
- The 500 message is V8's wording for a failed conversion to a primitive
  (`Receipts.ConversionFailure`); other engines word it differently. No modelled
  input throws anything but an `Error`, so the `Unknown error` branch of
  `Receipts.MessageOf` is never reached.
- The subscription handler's source is not part of this model. It is a
  parameter of `App.HandleRequest`.
- Express plumbing is not modelled: environment loading, the port, the JSON
  body parser and its own 400 responses, body-size limits and `listen`. The
  raw body is an input that is either captured (`Some`, possibly empty) or
  not (`None`). The parsed body is an object. A JSON array body behaves like
  an object without the three envelope fields, and the model does not
  separate those two cases.
- Route matching covers exact paths, an optional trailing slash and the
  `/webhooks` mount prefix. Express's case-insensitive matching, query
  strings and URL decoding are not modelled.
- `App.HandleRequest`: the 404 fallback's HTML body and the text body and
  `Allow` header of the framework's `OPTIONS` answer are not part of the
  response value (an empty body stands in; `App.AllowList` gives the allowed
  methods). The empty body of a `HEAD` response is not modelled either.
- Repeated request headers are not modelled; each header is one optional
  string. Node joins repeated signature headers (`x-hookdeck-signature`,
  `x-hookdeck-signature-2`) with `, ` before the verifier sees them. For a
  repeated `Authorization` header, Node keeps the first value.
- JSON numbers are reals. JSON.parse turns an out-of-range literal such as
  `1e400` into `Infinity`, which the response serialises as `null`: an
  envelope whose `id` is such a number is acknowledged with `event_id: null`,
  which the model does not capture. Property lookups that would reach a built-in
  prototype are not modelled. None of the keys read (`content`, `customer`,
  `transaction`, `id`, `email`, `first_name`, `last_name`, `customer_id`,
  `amount`, `currency_code`, `subscription_id`) is on one.
- Timing and constant-time comparison are not modelled; the code compares
  with plain string equality.
