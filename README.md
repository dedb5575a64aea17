# Adyen webhook demo: the payment ledger, modelled in Dafny

The server keeps every checkout in an in-memory object, `paymentStore`. Each
order reference maps to a record: the amount, the reference, and three fields
written later (`status`, `paymentRef`, `modificationRef`). Three kinds of
step change this store:

- opening a checkout session;
- the four direct modification calls (reversal, capture, cancel, refund);
- the webhook, which reconciles a batch of gateway notifications one item
  at a time.

The browser keeps a Redux slice whose two reducers store the server's
replies.

This project models all of these steps and proves what each one does to the
store.

- `Ledger` (ledger.dfy) is the pure specification. It defines the record,
  the store and the status labels. Each handler is a transition function on
  a value of the store, and lemmas state how each transition behaves. The
  store is a map plus the insertion order of its keys, because
  `findPayment` visits records in `Object.values` order. Session keys are
  21-character nanoids and are never array-index keys, so that order is
  exactly insertion order.
- `PaymentServer` (server.dfy) is the server as a class. Its fields
  `records` and `keys` are `paymentStore`. Each handler is a method proved to
  leave the store as the `Ledger` transition says. The webhook's `forEach` is
  a `while` loop whose invariant ties each step to that fold.
- `PaymentSlice` (payment_slice.dfy) holds the slice's initial state and its
  two reducers, as pure state transitions. Immer turns the reducers' draft
  assignments into a new state.
- `SessionFlow` (session_flow.dfy) connects the `/api/sessions` reply to the
  `paymentSession` reducer.
- `JsValues` and `Options` (js_values.dfy, options.dfy) are the JavaScript
  values and the optional field used by the rest.

External calls are inputs:

- the gateway's answer to a session or modification request (success with a
  `pspReference`, or an error status);
- the HMAC validator's verdict on each item (valid, invalid, or the
  validator threw);
- the fresh nanoid for a new session.

Each handler runs as one atomic step.

The model follows what server.js does, which is less than a full payment
lifecycle:

- No server code writes `capturedValue` or `refundedValue`, and there are no
  partial-capture or partial-refund statuses. CAPTURE always sets
  "Captured", and REFUND always sets "Refunded" when a record is found.
- `paymentRef` is overwritten by every AUTHORISATION. It is not written
  exactly once.
- The modification handlers never check that `paymentRef` is present.
- `findPayment` returns the first match and reports no ambiguity.
- At server.js:210 and server.js:221, the inner `if (success)` tests sit
  under the outer `success === "true"` guard. The "Authorised" fallback for
  CANCELLATION and the "Captured" fallback for REFUND therefore never run
  (`Ledger.ApplyItemIsReconcile`).

Error outcomes follow the code's control flow:

- Capture: a lookup of an unknown `orderRef` throws inside the `try`, and
  the catch answers 400 for every error.
- Reversal: the lookup throws inside the `try`. The catch's reply then
  throws too: `err.statusCode` is undefined, and Node's `writeHead` rejects
  that status when `.json(err.message)` sends the reply. No reply is sent.
- Cancel and refund: the lookup sits outside the `try`, so the handler
  throws and sends no reply.
- Webhook: a `null` element of `notificationItems` throws while the callback
  destructures its parameter. That is outside the per-item `try`, so it ends
  the loop and no "[accepted]" is sent.

Each of these exceptions escapes an `async` Express handler. The model
assumes the process survives it: the store stays as it was, `Crashed` and
`NoReply` mean only that no reply is sent, and later requests run on the same
store. What the Node runtime and the Express version actually do at that
point is not modelled (see "## Left out").

## Model

| member | source | states |
|---|---|---|
| `Ledger.EmptyStoreValid` | server.js:35 | the empty store satisfies the ledger invariant (keys listed once in insertion order, each record under its own reference with the session amount) |
| `PaymentServer.Server.constructor` | server.js:35 | the server starts with an empty, valid store |
| `Ledger.SessionEffect` | server.js:59-73 | a session the gateway opened adds a record `{EUR 1000, reference: orderRef}` under `orderRef`, appends a new key to the order, keeps every other record and keeps the invariant; a rejected session leaves the store unchanged |
| `Ledger.SessionStep` | server.js:59-68 | the store after a session request, as written: a session the gateway opened puts a new record under `orderRef` and leaves every other record alone; a rejected one adds nothing |
| `Ledger.SessionReply` | server.js:70-73 | the reply: status 200 with the pair whose first element is the gateway's session and whose second is `orderRef`, or the gateway's status with its message as the body |
| `PaymentServer.Server.CreateSession` | server.js:41-75 | the handler leaves the store as `SessionStep` says and replies with `[session, orderRef]` and status 200, or with the gateway's status and message |
| `Ledger.ModificationStep` | server.js:85-161 | the store after a modification call, as written: an unknown order or a rejected call changes nothing; the key set, the order and every other record never change |
| `Ledger.ModificationReplyFor` | server.js:78-161 | the reply: capture answers with the response or 400; the others crash only on an unknown order, and answer a rejection for a known order with the gateway's own status code; a forwarded response is the gateway's acceptance |
| `Ledger.ModificationEffect` | server.js:85-161 | a modification that the gateway accepts, for a known order, changes only that record, and in it only `status` (the endpoint's "… Initiated" label) and `modificationRef` (the gateway's `pspReference`); in every other case nothing changes; the invariant is kept |
| `Ledger.ModificationReplyAgrees` | server.js:78-161 | the caller gets the gateway's response exactly when the order is known and the gateway accepted, and the record then holds that `pspReference`; the handler crashes exactly when the order is unknown and the endpoint is not capture; outside capture, the caller gets an error status exactly when the order is known and the gateway rejected, and that status is the gateway's `statusCode` |
| `Ledger.InitiatedStatusPerEndpoint` | server.js:91-155 | reversal and refund write "Refund Initiated", capture writes "Capture Initiated", cancel writes "Cancel Initiated" |
| `PaymentServer.Server.CancelOrRefundPayment` | server.js:78-100 | the reversal handler leaves the store and the reply as the reversal transition says |
| `PaymentServer.Server.CapturePayment` | server.js:102-124 | the capture handler leaves the store and the reply as the capture transition says, with 400 for every error |
| `PaymentServer.Server.CancelPayment` | server.js:126-142 | the cancel handler leaves the store and the reply as the cancel transition says |
| `PaymentServer.Server.RefundPayment` | server.js:144-161 | the refund handler leaves the store and the reply as the refund transition says |
| `Ledger.FilterSpec` | server.js:252 | the filter keeps exactly the records whose `modificationRef` is the reference, and its first element is the first match in store order |
| `Ledger.FindPayment` | server.js:251-257 | a record `findPayment` returns carries the requested modification reference |
| `Ledger.FindPaymentFirst` | server.js:251-257 | a returned record matches and no record before it in store order does; when nothing is returned, no record in the order matches |
| `Ledger.FindPaymentNone` | server.js:251-257 | in a valid store, `findPayment` returns nothing exactly when no record carries the reference |
| `Ledger.FindPaymentUnique` | server.js:251-257 | when exactly one record carries the reference, `findPayment` returns it |
| `Ledger.ModificationThenFind` | server.js:114-117 | after a successful modification stamps a reference that no other record carries, a notification with that reference finds this record |
| `Ledger.ApplyItem` | server.js:170-233 | the dispatch of one notification item, as written, dead fallbacks included: it keeps the key set and order, and a rejected item changes nothing |
| `Ledger.RejectedItemIsNoOp` | server.js:171-172 | an item whose HMAC check fails or throws, or whose `success` is not the string "true", changes nothing |
| `Ledger.UnknownEventIsNoOp` | server.js:227-229 | an event code other than the five handled ones changes nothing |
| `Ledger.AuthorisationEffect` | server.js:174-180 | AUTHORISATION for a known `merchantReference` sets "Authorised" and overwrites `paymentRef` with the item's `pspReference`, nothing else; an unknown key changes nothing |
| `Ledger.CancelOrRefundEffect` | server.js:181-197 | CANCEL_OR_REFUND on the record `findPayment` returns sets "Refunded" exactly when `additionalData["modification.action"]` is "refund" and "Cancelled" otherwise, including when `additionalData` is missing; only that status changes; with no record found nothing changes |
| `Ledger.FixedOutcomes` | server.js:198-226 | CAPTURE always sets "Captured", CANCELLATION always "Cancelled" and REFUND always "Refunded" on the record found; only that status changes |
| `Ledger.ApplyItemIsReconcile` | server.js:172-226 | the dispatch as written equals a one-table reading (addressed record, settled status), so the fallback branches never run |
| `Ledger.ItemTouchesAtMostOne` | server.js:170-236 | an item changes at most the one record it addresses, never its amount, reference or `modificationRef`, never the key set or order, and keeps the invariant |
| `PaymentServer.Server.ProcessItem` | server.js:169-236 | the per-item callback leaves the store as the item transition says |
| `PaymentServer.Server.HandleNotifications` | server.js:164-240 | the loop applies the items in array order; it replies "[accepted]" exactly when it runs to the end, whatever the items did; a null element stops it |
| `Ledger.Deliver` | server.js:168-237 | the `forEach` as a fold: items in array order, stopping at a null element; the key set and order never change |
| `Ledger.WebhookReplyFor` | server.js:168-239 | "[accepted]" is sent exactly when the batch holds no null element |
| `Ledger.DeliverAppend` | server.js:168-237 | a batch is processed in order: its prefix first, then the rest, on the prefix's result |
| `Ledger.DeliverStopsAtNull` | server.js:168 | nothing after a null element has any effect |
| `Ledger.RejectedItemIsSkipped` | server.js:170-236 | dropping an item that fails validation from a batch does not change the batch's effect |
| `Ledger.DeliverKeepsShape` | server.js:168-237 | a batch keeps the invariant, the keys and their order, and every amount, reference and `modificationRef` |
| `Ledger.CaptureLifecycle` | server.js:65-203 | session, AUTHORISATION, capture call, CAPTURE webhook: the new record ends "Captured" with both references, and every other record is as it was |
| `PaymentSlice.InitialState` | src/app/paymentSlice.js:5-9 | the initial state as written: no (falsy) error, and the given configuration object unchanged |
| `PaymentSlice.PaymentSession` | src/app/paymentSlice.js:33-40 | the reducer as written; `Threw` exactly when the status is below 300 and the payload is not iterable; it never touches `paymentDataStoreRes` or `config` |
| `PaymentSlice.PaymentDataStore` | src/app/paymentSlice.js:41-48 | the reducer as written; it never touches `session`, `orderRef` or `config`, and changes at most one of `error` and `paymentDataStoreRes` |
| `PaymentSlice.InitialStateIsEmpty` | src/app/paymentSlice.js:5-9 | the initial state has the empty (falsy) error and null `session`, `orderRef` and `paymentDataStoreRes` |
| `PaymentSlice.PaymentSessionEffect` | src/app/paymentSlice.js:33-40 | status 300 and up sets only `error`; below 300 the reducer stores the pair's elements in `session` and `orderRef` and keeps `error`; it throws exactly when the payload is neither an array nor a string; it never touches `paymentDataStoreRes` or `config` |
| `PaymentSlice.PaymentDataStoreEffect` | src/app/paymentSlice.js:41-48 | status 300 and up sets `error` and keeps the dump; below 300 it replaces the dump and keeps `error`; `session`, `orderRef` and `config` never change |
| `PaymentSlice.StatusThreshold` | src/app/paymentSlice.js:35-46 | status 300 takes the error branch and 299 the success branch, in both reducers |
| `PaymentSlice.ReducersIdempotent` | src/app/paymentSlice.js:33-48 | dispatching the same payload twice leaves the same state as dispatching it once |
| `PaymentSlice.StaleErrorKept` | src/app/paymentSlice.js:37-38 | a successful session after a failed one keeps the earlier error |
| `SessionFlow.SessionRoundTrip` | server.js:65-73 | after an opened session the browser holds the session and the `orderRef` the server stored; after a rejection (status 300 and up) it holds the gateway's message as its error and the server's store is unchanged |

## Left out

- Express plumbing, request logging, environment loading, static serving, server start and every `console` call (server.js:1-23, 262-263): these are not ledger logic.
- `GET /api/getPaymentDataStore` (server.js:38): it only serialises the whole store.
- The gateway calls and the HMAC computation (server.js:26-32, 59, 90, 114, 133, 152, 171): they are foreign library code. Their outcomes are parameters.
- The outgoing request payloads are not modelled: the merchant account, the fresh nanoid `reference`, the hard-coded capture amount of EUR 1000, the refund amount taken unchecked from the query string, and `allowedPaymentMethods`. The ledger never reads them.
- nanoid generation (server.js:45): the new order reference is a parameter. A reference already in the store is overwritten in place and keeps its position, as a JavaScript property assignment does.
- Interleaving of concurrent requests across `await`: each handler is one atomic step.
- The fate of the process after an exception escapes a handler (`Crashed`, `NoReply`): the model assumes the process survives, so the store persists and later steps run on it. Under Express 4 such an exception is an unhandled promise rejection, which ends a Node 15 or later process and with it the whole in-memory store. Under Express 5 the router answers 500 instead.
- Keys that JavaScript orders before the others (array-index keys such as `"0"`, which `Object.values` visits first, in ascending order): the model puts every key at its insertion position. That is exact for the 21-character nanoid keys server.js creates. It is not exact for an `orderRef` of that shape passed to the transitions.
- A gateway error without `statusCode`: the model's rejected outcome always carries a status. In the code, the catch's reply would then throw, when `.json(...)` sends it with an undefined status.
- Keys naming members of `Object.prototype` (for example a `merchantReference` of `"constructor"` or `"__proto__"`): the model's store holds only its own keys.
- Notification items whose fields are missing or not strings: every field the server reads is modelled as a string, and `additionalData` as an optional map from strings to strings. The one missing field with an effect on the ledger is `pspReference`: at server.js:252 `v.modificationRef === pspReference` is then `undefined === undefined`, so `findPayment` returns the first record never modified, and a CAPTURE, CANCELLATION, REFUND or CANCEL_OR_REFUND item without `pspReference` settles that record. The model does not capture this. A request body without a `notificationItems` array (the `forEach` throws before any item) is also left out.
- `capturedValue`, `refundedValue` and partial capture or refund: no server code writes them; src/features/cancel/Cancel.js only reads them.
- src/features/cancel/Cancel.js and src/features/capture/Capture.js: React rendering. Their filters and buttons are display guards that the server does not enforce.
- The thunks in src/app/paymentSlice.js:54-94: network I/O. Their dispatch of `[json, status]` is the reducers' input. The contents of the static `config` object (src/app/paymentSlice.js:10-30) are inert data, kept as an opaque value.
- JSON numbers are modelled as integers. No modelled code does arithmetic on them.
