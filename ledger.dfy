/**
 * The in-memory payment ledger of server.js (`paymentStore`) and every
 * change the server makes to it, as pure transitions on a value of the
 * store. Each gateway call, each HMAC verdict and each fresh order
 * reference is an input of the transition that consumes it.
 */
module Ledger {
  import opened Options
  import opened JsValues

  /* ---------------------------------------------------------------- records */

  /** The status labels the server writes into a record. */
  datatype Status =
    | Authorised
    | CaptureInitiated
    | CancelInitiated
    | RefundInitiated
    | Captured
    | Refunded
    | Cancelled
  {
    /** The exact string the server stores. */
    function Label(): string {
      match this
      case Authorised => "Authorised"
      case CaptureInitiated => "Capture Initiated"
      case CancelInitiated => "Cancel Initiated"
      case RefundInitiated => "Refund Initiated"
      case Captured => "Captured"
      case Refunded => "Refunded"
      case Cancelled => "Cancelled"
    }
  }

  datatype Amount = Amount(currency: string, value: int)

  /** One payment record; the three optional fields are absent until first written. */
  datatype Record = Record(
    amount: Amount,
    reference: string,
    status: Option<Status>,
    paymentRef: Option<string>,
    modificationRef: Option<string>)

  /**
   * The store: the records by order reference, and the order in which their
   * keys were inserted, which is the order `Object.values` visits them in.
   * That holds for the keys server.js creates (21-character nanoids, never
   * array-index keys such as "0", which JavaScript would visit first); the
   * model gives every key its insertion position.
   */
  datatype Store = Store(records: map<string, Record>, keys: seq<string>)

  /** Every session is opened for 10 EUR, in minor units. */
  const SessionAmount := Amount("EUR", 1000)

  function NewRecord(orderRef: string): Record {
    Record(SessionAmount, orderRef, None, None, None)
  }

  /**
   * What every store the server can reach satisfies: each key is listed once
   * in insertion order, and each record sits under its own reference and
   * holds the session amount.
   */
  ghost predicate Valid(s: Store) {
    && (forall i, j :: 0 <= i < j < |s.keys| ==> s.keys[i] != s.keys[j])
    && (forall k :: k in s.records <==> k in s.keys)
    && (forall k :: k in s.records ==> s.records[k].reference == k && s.records[k].amount == SessionAmount)
  }

  const EmptyStore := Store(map[], [])

  lemma EmptyStoreValid()
    ensures Valid(EmptyStore)
  {
  }

  /** Writes `r` under `k`: a new key goes to the end of the order, an existing one keeps its place. */
  function Put(s: Store, k: string, r: Record): Store {
    Store(s.records[k := r], if k in s.records then s.keys else s.keys + [k])
  }

  /** The record under `k` with a new status; nothing else changes. */
  function SetStatus(s: Store, k: string, st: Status): Store
    requires k in s.records
  {
    s.(records := s.records[k := s.records[k].(status := Some(st))])
  }

  /* ------------------------------------------------------- POST /api/sessions */

  /** The gateway's answer to `checkout.sessions`. */
  datatype SessionOutcome =
    | SessionOpened(session: JsValue)
    | SessionRejected(statusCode: int, message: string)

  datatype HttpReply = HttpReply(status: int, body: JsValue)

  /** The store after a session request for the fresh reference `orderRef`. */
  function SessionStep(s: Store, orderRef: string, outcome: SessionOutcome): (s': Store)
    ensures s'.records.Keys == s.records.Keys + (if outcome.SessionOpened? then {orderRef} else {})
    ensures forall k :: k in s.records && k != orderRef ==> s'.records[k] == s.records[k]
    ensures outcome.SessionOpened? ==> s'.records[orderRef].reference == orderRef && s'.records[orderRef].status.None?
  {
    match outcome
    case SessionOpened(_) => Put(s, orderRef, NewRecord(orderRef))
    case SessionRejected(_, _) => s
  }

  /** The reply: the pair [session, orderRef], or the gateway's status and message. */
  function SessionReply(orderRef: string, outcome: SessionOutcome): (reply: HttpReply)
    ensures outcome.SessionOpened? ==>
      && reply.status == 200 && reply.body.Arr? && |reply.body.elems| == 2
      && reply.body.elems[0] == outcome.session && reply.body.elems[1] == Str(orderRef)
    ensures outcome.SessionRejected? ==> reply.status == outcome.statusCode && reply.body == Str(outcome.message)
  {
    match outcome
    case SessionOpened(session) => HttpReply(200, Arr([session, Str(orderRef)]))
    case SessionRejected(code, message) => HttpReply(code, Str(message))
  }

  lemma SessionEffect(s: Store, orderRef: string, outcome: SessionOutcome)
    requires Valid(s)
    ensures var s' := SessionStep(s, orderRef, outcome);
      && Valid(s')
      && (outcome.SessionOpened? ==>
            && s'.records.Keys == s.records.Keys + {orderRef}
            && s'.records[orderRef] == NewRecord(orderRef)
            && (forall k :: k in s.records && k != orderRef ==> s'.records[k] == s.records[k])
            && s'.keys == (if orderRef in s.records then s.keys else s.keys + [orderRef]))
      && (outcome.SessionRejected? ==> s' == s)
  {
  }

  /* ------------------------------------------------ direct modification calls */

  /** The four endpoints that ask the gateway to modify a payment. */
  datatype ModificationKind =
    | Reversal       // POST /api/cancelOrRefundPayment
    | CaptureCall    // POST /api/capturePayment
    | CancelCall     // POST /api/cancelPayment
    | RefundCall     // POST /api/refundPayment

  /** The gateway's answer to a modification request. */
  datatype GatewayOutcome =
    | GatewayAccepted(pspReference: string)
    | GatewayRejected(statusCode: int)

  /**
   * What the caller gets back: the gateway's response, an error status, or
   * nothing at all because the handler threw outside its error handling.
   */
  datatype ModificationReply =
    | Forwarded(pspReference: string)
    | Failed(statusCode: int)
    | Crashed

  function InitiatedStatus(kind: ModificationKind): Status {
    match kind
    case Reversal => RefundInitiated
    case CaptureCall => CaptureInitiated
    case CancelCall => CancelInitiated
    case RefundCall => RefundInitiated
  }

  /**
   * The store after a modification call for `orderRef`. An unknown reference
   * never reaches the gateway; a rejected call changes nothing.
   */
  function ModificationStep(s: Store, orderRef: string, kind: ModificationKind, outcome: GatewayOutcome): (s': Store)
    ensures s'.keys == s.keys && s'.records.Keys == s.records.Keys
    ensures forall k :: k in s.records && k != orderRef ==> s'.records[k] == s.records[k]
    ensures outcome.GatewayRejected? ==> s' == s
  {
    if orderRef !in s.records then s
    else match outcome
      case GatewayAccepted(psp) =>
        var r := s.records[orderRef];
        s.(records := s.records[orderRef := r.(status := Some(InitiatedStatus(kind)), modificationRef := Some(psp))])
      case GatewayRejected(_) => s
  }

  /**
   * The reply of a modification call. The capture handler turns every error,
   * the failed lookup included, into status 400; the other three pass the
   * gateway's status on, and crash on an unknown reference.
   */
  function ModificationReplyFor(s: Store, orderRef: string, kind: ModificationKind, outcome: GatewayOutcome): (reply: ModificationReply)
    ensures kind == CaptureCall ==> reply.Forwarded? || reply == Failed(400)
    ensures reply.Crashed? ==> orderRef !in s.records
    ensures reply.Forwarded? ==> outcome == GatewayAccepted(reply.pspReference)
    ensures reply.Failed? && kind != CaptureCall ==> outcome == GatewayRejected(reply.statusCode)
    ensures orderRef in s.records && outcome.GatewayRejected? && kind != CaptureCall ==> reply == Failed(outcome.statusCode)
  {
    if orderRef !in s.records then
      if kind == CaptureCall then Failed(400) else Crashed
    else match outcome
      case GatewayAccepted(psp) => Forwarded(psp)
      case GatewayRejected(code) => if kind == CaptureCall then Failed(400) else Failed(code)
  }

  /** Each endpoint stamps its own "... Initiated" label. */
  lemma InitiatedStatusPerEndpoint()
    ensures InitiatedStatus(Reversal).Label() == "Refund Initiated"
    ensures InitiatedStatus(CaptureCall).Label() == "Capture Initiated"
    ensures InitiatedStatus(CancelCall).Label() == "Cancel Initiated"
    ensures InitiatedStatus(RefundCall).Label() == "Refund Initiated"
  {
  }

  /**
   * A successful call changes only the addressed record, and in it only the
   * status and the modification reference; otherwise nothing changes.
   */
  lemma ModificationEffect(s: Store, orderRef: string, kind: ModificationKind, outcome: GatewayOutcome)
    requires Valid(s)
    ensures var s' := ModificationStep(s, orderRef, kind, outcome);
      && Valid(s')
      && s'.keys == s.keys
      && s'.records.Keys == s.records.Keys
      && (forall k :: k in s.records && k != orderRef ==> s'.records[k] == s.records[k])
      && (orderRef in s.records && outcome.GatewayAccepted? ==>
            && s'.records[orderRef].status == Some(InitiatedStatus(kind))
            && s'.records[orderRef].modificationRef == Some(outcome.pspReference)
            && s'.records[orderRef].amount == s.records[orderRef].amount
            && s'.records[orderRef].reference == s.records[orderRef].reference
            && s'.records[orderRef].paymentRef == s.records[orderRef].paymentRef)
      && (!(orderRef in s.records && outcome.GatewayAccepted?) ==> s' == s)
  {
  }

  /**
   * The caller is told of success exactly when the record exists and the
   * gateway accepted, and then the record carries the reference it is told.
   * Outside capture, an error status reaches the caller exactly when the
   * record exists and the gateway rejected, and it is the gateway's own.
   */
  lemma ModificationReplyAgrees(s: Store, orderRef: string, kind: ModificationKind, outcome: GatewayOutcome)
    ensures var reply := ModificationReplyFor(s, orderRef, kind, outcome);
      && (reply.Forwarded? <==> orderRef in s.records && outcome.GatewayAccepted?)
      && (reply.Forwarded? ==>
            && reply.pspReference == outcome.pspReference
            && ModificationStep(s, orderRef, kind, outcome).records[orderRef].modificationRef == Some(reply.pspReference))
      && (reply.Crashed? <==> orderRef !in s.records && kind != CaptureCall)
      && (kind != CaptureCall ==>
            && (reply.Failed? <==> orderRef in s.records && outcome.GatewayRejected?)
            && (reply.Failed? ==> reply.statusCode == outcome.statusCode))
  {
  }

  /* ------------------------------------------------------------- findPayment */

  /** Record `k` carries the modification reference `ref`. */
  predicate Matches(s: Store, k: string, ref: string) {
    k in s.records && s.records[k].modificationRef == Some(ref)
  }

  /** `Object.values(paymentStore).filter(...)`, as the keys of the records it keeps. */
  function Filter(s: Store, ks: seq<string>, ref: string): seq<string> {
    if ks == [] then []
    else if Matches(s, ks[0], ref) then [ks[0]] + Filter(s, ks[1..], ref)
    else Filter(s, ks[1..], ref)
  }

  /** The first record, in insertion order, whose modification reference is `ref`. */
  function FindPayment(s: Store, ref: string): (found: Option<string>)
    ensures found.Some? ==> Matches(s, found.value, ref)
  {
    FilterSpec(s, s.keys, ref);
    var payments := Filter(s, s.keys, ref);
    // server.js also checks `payments.length < 0`, which a length never is
    if |payments| > 0 then Some(payments[0]) else None
  }

  /** The filter keeps exactly the matching keys, and its head is the first match. */
  lemma {:induction false} FilterSpec(s: Store, ks: seq<string>, ref: string)
    ensures var r := Filter(s, ks, ref);
      && (forall k :: k in r ==> k in ks && Matches(s, k, ref))
      && (forall j :: 0 <= j < |ks| && Matches(s, ks[j], ref) ==> ks[j] in r)
      && (|r| > 0 ==> exists n :: 0 <= n < |ks| && ks[n] == r[0] && forall j :: 0 <= j < n ==> !Matches(s, ks[j], ref))
  {
    if ks != [] {
      FilterSpec(s, ks[1..], ref);
      var rest := Filter(s, ks[1..], ref);
      var r := Filter(s, ks, ref);
      forall j | 0 <= j < |ks| && Matches(s, ks[j], ref)
        ensures ks[j] in r
      {
        if j > 0 {
          assert ks[1..][j - 1] == ks[j];
        }
      }
      if !Matches(s, ks[0], ref) && |r| > 0 {
        var n :| 0 <= n < |ks[1..]| && ks[1..][n] == rest[0] && forall j :: 0 <= j < n ==> !Matches(s, ks[1..][j], ref);
        assert ks[n + 1] == r[0];
        forall j | 0 <= j < n + 1
          ensures !Matches(s, ks[j], ref)
        {
          if j > 0 {
            assert ks[j] == ks[1..][j - 1];
          }
        }
      }
    }
  }

  /** What `findPayment` returns matches, and no earlier record does; when it returns nothing, no listed record matches. */
  lemma FindPaymentFirst(s: Store, ref: string)
    ensures FindPayment(s, ref).Some? ==>
      var k := FindPayment(s, ref).value;
      && Matches(s, k, ref)
      && exists n :: 0 <= n < |s.keys| && s.keys[n] == k && forall j :: 0 <= j < n ==> !Matches(s, s.keys[j], ref)
    ensures FindPayment(s, ref).None? ==> forall j :: 0 <= j < |s.keys| ==> !Matches(s, s.keys[j], ref)
  {
    FilterSpec(s, s.keys, ref);
  }

  /** In a valid store, `findPayment` comes back empty exactly when no record carries `ref`. */
  lemma FindPaymentNone(s: Store, ref: string)
    requires Valid(s)
    ensures FindPayment(s, ref).None? <==> forall k :: k in s.records ==> s.records[k].modificationRef != Some(ref)
  {
    FilterSpec(s, s.keys, ref);
    if FindPayment(s, ref).None? {
      forall k | k in s.records
        ensures s.records[k].modificationRef != Some(ref)
      {
        assert k in s.keys;
        var j :| 0 <= j < |s.keys| && s.keys[j] == k;
      }
    }
  }

  /** When exactly one record carries `ref`, `findPayment` returns that record. */
  lemma FindPaymentUnique(s: Store, ref: string, k: string)
    requires Valid(s)
    requires Matches(s, k, ref)
    requires forall k' :: k' in s.records && k' != k ==> s.records[k'].modificationRef != Some(ref)
    ensures FindPayment(s, ref) == Some(k)
  {
    FindPaymentNone(s, ref);
    FindPaymentFirst(s, ref);
  }

  /** A record stamped by a successful call is what a later notification for that reference finds, if no other record carries it. */
  lemma ModificationThenFind(s: Store, orderRef: string, kind: ModificationKind, psp: string)
    requires Valid(s)
    requires orderRef in s.records
    requires forall k :: k in s.records && k != orderRef ==> s.records[k].modificationRef != Some(psp)
    ensures FindPayment(ModificationStep(s, orderRef, kind, GatewayAccepted(psp)), psp) == Some(orderRef)
  {
    var s' := ModificationStep(s, orderRef, kind, GatewayAccepted(psp));
    ModificationEffect(s, orderRef, kind, GatewayAccepted(psp));
    FindPaymentUnique(s', psp, orderRef);
  }

  /* -------------------------------------------- POST /api/webhook/notification */

  /** The validator's verdict on one item; it may also throw on a malformed item. */
  datatype HmacVerdict = HmacValid | HmacInvalid | HmacThrows

  /** The fields of a `NotificationRequestItem` the server reads. */
  datatype NotificationItem = NotificationItem(
    hmac: HmacVerdict,
    success: string,
    eventCode: string,
    pspReference: string,
    merchantReference: string,
    additionalData: Option<map<string, string>>)

  /** One element of `notificationItems`: a wrapper object, or null. */
  datatype Entry = Wrapped(item: NotificationItem) | NullEntry

  /** Only items with a valid signature and the string "true" as `success` drive state. */
  predicate Accepted(item: NotificationItem) {
    item.hmac == HmacValid && item.success == "true"
  }

  /** The four-part test of `additionalData["modification.action"]` for a refund. */
  predicate RefundAction(additionalData: Option<map<string, string>>) {
    match additionalData
    case None => false
    case Some(data) =>
      && "modification.action" in data
      && Truthy(data["modification.action"])
      && "modification.action" in data
      && "refund" == data["modification.action"]
  }

  /** The per-item body of the webhook handler, as written. */
  function ApplyItem(s: Store, item: NotificationItem): (s': Store)
    ensures s'.keys == s.keys && s'.records.Keys == s.records.Keys
    ensures !Accepted(item) ==> s' == s
  {
    if item.hmac != HmacValid then s
    else if item.success != "true" then s
    else if item.eventCode == "AUTHORISATION" then
      if item.merchantReference in s.records then
        var k := item.merchantReference;
        s.(records := s.records[k := s.records[k].(status := Some(Authorised), paymentRef := Some(item.pspReference))])
      else s
    else if item.eventCode == "CANCEL_OR_REFUND" then
      match FindPayment(s, item.pspReference)
      case None => s
      case Some(k) => if RefundAction(item.additionalData) then SetStatus(s, k, Refunded) else SetStatus(s, k, Cancelled)
    else if item.eventCode == "CAPTURE" then
      match FindPayment(s, item.pspReference)
      case None => s
      case Some(k) => SetStatus(s, k, Captured)
    else if item.eventCode == "CANCELLATION" then
      match FindPayment(s, item.pspReference)
      case None => s
      case Some(k) => SetStatus(s, k, if Truthy(item.success) then Cancelled else Authorised)
    else if item.eventCode == "REFUND" then
      match FindPayment(s, item.pspReference)
      case None => s
      case Some(k) => SetStatus(s, k, if Truthy(item.success) then Refunded else Captured)
    else s
  }

  /* A reference reading of the dispatch as one table: which record an accepted
     item addresses, and the status it settles that record on. */

  function SettledStatus(item: NotificationItem): Option<Status> {
    match item.eventCode
    case "AUTHORISATION" => Some(Authorised)
    case "CANCEL_OR_REFUND" => Some(if RefundAction(item.additionalData) then Refunded else Cancelled)
    case "CAPTURE" => Some(Captured)
    case "CANCELLATION" => Some(Cancelled)
    case "REFUND" => Some(Refunded)
    case _ => None
  }

  function AddressedKey(s: Store, item: NotificationItem): Option<string> {
    if item.eventCode == "AUTHORISATION" then
      if item.merchantReference in s.records then Some(item.merchantReference) else None
    else FindPayment(s, item.pspReference)
  }

  function Reconcile(s: Store, item: NotificationItem): Store {
    if !Accepted(item) then s
    else match (SettledStatus(item), AddressedKey(s, item))
      case (Some(st), Some(k)) =>
        var r := s.records[k];
        var paymentRef := if item.eventCode == "AUTHORISATION" then Some(item.pspReference) else r.paymentRef;
        s.(records := s.records[k := r.(status := Some(st), paymentRef := paymentRef)])
      case _ => s
  }

  /**
   * The handler equals the table: the fallbacks "Authorised" for CANCELLATION
   * and "Captured" for REFUND sit under a test that the outer `success ===
   * "true"` guard has already decided, so they never run.
   */
  lemma ApplyItemIsReconcile(s: Store, item: NotificationItem)
    ensures ApplyItem(s, item) == Reconcile(s, item)
  {
    FindPaymentFirst(s, item.pspReference);
  }

  /** A rejected item, or one whose signature check throws, changes nothing. */
  lemma RejectedItemIsNoOp(s: Store, item: NotificationItem)
    requires !Accepted(item)
    ensures ApplyItem(s, item) == s
  {
  }

  /** Any event code but the five handled ones changes nothing. */
  lemma UnknownEventIsNoOp(s: Store, item: NotificationItem)
    requires item.eventCode !in {"AUTHORISATION", "CANCEL_OR_REFUND", "CAPTURE", "CANCELLATION", "REFUND"}
    ensures ApplyItem(s, item) == s
  {
  }

  /** AUTHORISATION settles the record named by `merchantReference`, overwriting any earlier `paymentRef`. */
  lemma AuthorisationEffect(s: Store, item: NotificationItem)
    requires Accepted(item) && item.eventCode == "AUTHORISATION"
    ensures var s' := ApplyItem(s, item); var k := item.merchantReference;
      && (k in s.records ==>
            && s'.records == s.records[k := s.records[k].(status := Some(Authorised), paymentRef := Some(item.pspReference))]
            && s'.records[k].status.value.Label() == "Authorised")
      && (k !in s.records ==> s' == s)
  {
  }

  /** CANCEL_OR_REFUND settles on "Refunded" exactly when the action is "refund", and on "Cancelled" otherwise. */
  lemma CancelOrRefundEffect(s: Store, item: NotificationItem)
    requires Accepted(item) && item.eventCode == "CANCEL_OR_REFUND"
    ensures var s' := ApplyItem(s, item);
      match FindPayment(s, item.pspReference)
      case None => s' == s
      case Some(k) =>
        && k in s.records
        && (s'.records[k].status == Some(Refunded) <==>
              item.additionalData.Some? && "modification.action" in item.additionalData.value
              && item.additionalData.value["modification.action"] == "refund")
        && (s'.records[k].status == Some(Cancelled) <==> !RefundAction(item.additionalData))
        && s'.records == s.records[k := s.records[k].(status := s'.records[k].status)]
  {
    FindPaymentFirst(s, item.pspReference);
  }

  /** CAPTURE, CANCELLATION and REFUND each settle on one fixed status. */
  lemma FixedOutcomes(s: Store, item: NotificationItem)
    requires Accepted(item) && item.eventCode in {"CAPTURE", "CANCELLATION", "REFUND"}
    ensures var s' := ApplyItem(s, item);
      match FindPayment(s, item.pspReference)
      case None => s' == s
      case Some(k) =>
        && k in s.records
        && s'.records == s.records[k := s.records[k].(status := s'.records[k].status)]
        && (item.eventCode == "CAPTURE" ==> s'.records[k].status == Some(Captured))
        && (item.eventCode == "CANCELLATION" ==> s'.records[k].status == Some(Cancelled))
        && (item.eventCode == "REFUND" ==> s'.records[k].status == Some(Refunded))
  {
    FindPaymentFirst(s, item.pspReference);
  }

  /**
   * An item changes at most the one record it addresses, and in it nothing
   * but the status and the payment reference; the store stays valid.
   */
  lemma ItemTouchesAtMostOne(s: Store, item: NotificationItem)
    requires Valid(s)
    ensures var s' := ApplyItem(s, item);
      && Valid(s')
      && s'.keys == s.keys
      && s'.records.Keys == s.records.Keys
      && (forall k :: k in s.records && AddressedKey(s, item) != Some(k) ==> s'.records[k] == s.records[k])
      && (forall k :: k in s.records ==>
            && s'.records[k].amount == s.records[k].amount
            && s'.records[k].reference == s.records[k].reference
            && s'.records[k].modificationRef == s.records[k].modificationRef)
  {
    ApplyItemIsReconcile(s, item);
    FindPaymentFirst(s, item.pspReference);
  }

  /**
   * The `forEach` over `notificationItems`: items in array order; a null
   * element throws before the per-item error handling and ends the loop.
   */
  function Deliver(s: Store, entries: seq<Entry>): (s': Store)
    ensures s'.keys == s.keys && s'.records.Keys == s.records.Keys
    decreases |entries|
  {
    if entries == [] then s
    else match entries[0]
      case NullEntry => s
      case Wrapped(item) => Deliver(ApplyItem(s, item), entries[1..])
  }

  predicate NoNull(entries: seq<Entry>) {
    forall i :: 0 <= i < |entries| ==> entries[i].Wrapped?
  }

  /** "[accepted]" is sent once the loop has run to its end, whatever each item did. */
  datatype WebhookReply = AcceptedReply | NoReply

  function WebhookReplyFor(entries: seq<Entry>): (reply: WebhookReply)
    ensures reply == NoReply <==> NullEntry in entries
  {
    if NoNull(entries) then AcceptedReply else NoReply
  }

  /** A delivery is processed in order: the items of a prefix first, then the rest. */
  lemma {:induction false} DeliverAppend(s: Store, a: seq<Entry>, b: seq<Entry>)
    requires NoNull(a)
    ensures Deliver(s, a + b) == Deliver(Deliver(s, a), b)
    decreases |a|
  {
    if a != [] {
      assert (a + b)[1..] == a[1..] + b;
      DeliverAppend(ApplyItem(s, a[0].item), a[1..], b);
    } else {
      assert a + b == b;
    }
  }

  /** Once a null element is reached, nothing after it has an effect. */
  lemma DeliverStopsAtNull(s: Store, a: seq<Entry>, b: seq<Entry>)
    requires NoNull(a)
    ensures Deliver(s, a + [NullEntry] + b) == Deliver(s, a)
  {
    DeliverAppend(s, a, [NullEntry] + b);
    assert a + [NullEntry] + b == a + ([NullEntry] + b);
  }

  /** An item that fails validation can be dropped from a delivery without changing its effect. */
  lemma RejectedItemIsSkipped(s: Store, a: seq<Entry>, item: NotificationItem, b: seq<Entry>)
    requires NoNull(a) && !Accepted(item)
    ensures Deliver(s, a + [Wrapped(item)] + b) == Deliver(s, a + b)
  {
    DeliverAppend(s, a, [Wrapped(item)] + b);
    assert a + [Wrapped(item)] + b == a + ([Wrapped(item)] + b);
    assert ([Wrapped(item)] + b)[1..] == b;
    DeliverAppend(s, a, b);
  }

  /** A delivery keeps the store valid, keeps its keys and their order, and rewrites no amount, reference or modification reference. */
  lemma {:induction false} DeliverKeepsShape(s: Store, entries: seq<Entry>)
    requires Valid(s)
    ensures var s' := Deliver(s, entries);
      && Valid(s')
      && s'.keys == s.keys
      && s'.records.Keys == s.records.Keys
      && (forall k :: k in s.records ==>
            && s'.records[k].amount == s.records[k].amount
            && s'.records[k].reference == s.records[k].reference
            && s'.records[k].modificationRef == s.records[k].modificationRef)
    decreases |entries|
  {
    if entries != [] && entries[0].Wrapped? {
      ItemTouchesAtMostOne(s, entries[0].item);
      DeliverKeepsShape(ApplyItem(s, entries[0].item), entries[1..]);
    }
  }

  /* --------------------------------------------------------------- lifecycle */

  /**
   * A session, its AUTHORISATION, a capture call and the CAPTURE webhook
   * leave the new record "Captured", carrying both references, and every
   * other record as it was.
   */
  lemma CaptureLifecycle(s: Store, orderRef: string, session: JsValue, authPsp: string, capturePsp: string)
    requires Valid(s) && orderRef !in s.records
    requires forall k :: k in s.records ==> s.records[k].modificationRef != Some(capturePsp)
    ensures
      var s1 := SessionStep(s, orderRef, SessionOpened(session));
      var s2 := ApplyItem(s1, NotificationItem(HmacValid, "true", "AUTHORISATION", authPsp, orderRef, None));
      var s3 := ModificationStep(s2, orderRef, CaptureCall, GatewayAccepted(capturePsp));
      var s4 := ApplyItem(s3, NotificationItem(HmacValid, "true", "CAPTURE", capturePsp, "", None));
      && Valid(s4)
      && s4.keys == s.keys + [orderRef]
      && s4.records[orderRef] == Record(SessionAmount, orderRef, Some(Captured), Some(authPsp), Some(capturePsp))
      && forall k :: k in s.records ==> s4.records[k] == s.records[k]
  {
    var s1 := SessionStep(s, orderRef, SessionOpened(session));
    assert Valid(s1) && s1.keys == s.keys + [orderRef] && s1.records[orderRef] == NewRecord(orderRef)
      && (forall k :: k in s.records ==> s1.records[k] == s.records[k])
      && (forall k :: k in s1.records && k != orderRef ==> s1.records[k].modificationRef != Some(capturePsp))
    by {
      SessionEffect(s, orderRef, SessionOpened(session));
    }
    var auth := NotificationItem(HmacValid, "true", "AUTHORISATION", authPsp, orderRef, None);
    var s2 := ApplyItem(s1, auth);
    assert Valid(s2) && s2.keys == s1.keys
      && s2.records[orderRef] == Record(SessionAmount, orderRef, Some(Authorised), Some(authPsp), None)
      && (forall k :: k in s.records ==> s2.records[k] == s.records[k])
      && (forall k :: k in s2.records && k != orderRef ==> s2.records[k].modificationRef != Some(capturePsp))
    by {
      AuthorisationEffect(s1, auth);
      ItemTouchesAtMostOne(s1, auth);
    }
    var s3 := ModificationStep(s2, orderRef, CaptureCall, GatewayAccepted(capturePsp));
    assert Valid(s3) && s3.keys == s2.keys
      && s3.records[orderRef] == Record(SessionAmount, orderRef, Some(CaptureInitiated), Some(authPsp), Some(capturePsp))
      && (forall k :: k in s.records ==> s3.records[k] == s.records[k])
      && FindPayment(s3, capturePsp) == Some(orderRef)
    by {
      ModificationEffect(s2, orderRef, CaptureCall, GatewayAccepted(capturePsp));
      ModificationThenFind(s2, orderRef, CaptureCall, capturePsp);
    }
    var capture := NotificationItem(HmacValid, "true", "CAPTURE", capturePsp, "", None);
    ItemTouchesAtMostOne(s3, capture);
    FixedOutcomes(s3, capture);
  }
}
