/**
 * The request handlers of server.js as methods of one object that owns
 * `paymentStore`. Each handler body runs as one atomic step; the outcome of
 * the gateway call it awaits, and the fresh nanoid of a new session, are
 * parameters. Every method is proved to leave the store as the matching
 * transition of `Ledger` says.
 */
module PaymentServer {
  import opened Options
  import opened JsValues
  import opened Ledger

  class Server {
    /** `paymentStore`: the records by order reference ... */
    var records: map<string, Record>
    /** ... and the insertion order of their keys. */
    var keys: seq<string>

    function Snapshot(): Store
      reads this
    {
      Store(records, keys)
    }

    ghost predicate Valid()
      reads this
    {
      Ledger.Valid(Snapshot())
    }

    constructor ()
      ensures Valid() && Snapshot() == EmptyStore
    {
      records := map[];
      keys := [];
      new;
      EmptyStoreValid();
    }

    /** POST /api/sessions, with `orderRef` the fresh nanoid. */
    method CreateSession(orderRef: string, outcome: SessionOutcome) returns (reply: HttpReply)
      requires Valid()
      modifies this
      ensures Valid()
      ensures Snapshot() == SessionStep(old(Snapshot()), orderRef, outcome)
      ensures reply == SessionReply(orderRef, outcome)
    {
      SessionEffect(Snapshot(), orderRef, outcome);
      match outcome
      case SessionRejected(code, message) =>
        reply := HttpReply(code, Str(message));
      case SessionOpened(session) =>
        if orderRef !in records {
          keys := keys + [orderRef];
        }
        records := records[orderRef := Record(Amount("EUR", 1000), orderRef, None, None, None)];
        reply := HttpReply(200, Arr([session, Str(orderRef)]));
    }

    /** The common tail of the four modification handlers, once the gateway has accepted. */
    method Stamp(orderRef: string, st: Status, psp: string)
      requires orderRef in records
      modifies this`records
      ensures records == old(records)[orderRef := old(records)[orderRef].(status := Some(st), modificationRef := Some(psp))]
    {
      records := records[orderRef := records[orderRef].(status := Some(st))];
      records := records[orderRef := records[orderRef].(modificationRef := Some(psp))];
    }

    /** POST /api/cancelOrRefundPayment: a reversal. */
    method CancelOrRefundPayment(orderRef: string, outcome: GatewayOutcome) returns (reply: ModificationReply)
      requires Valid()
      modifies this
      ensures Valid()
      ensures Snapshot() == ModificationStep(old(Snapshot()), orderRef, Reversal, outcome)
      ensures reply == ModificationReplyFor(old(Snapshot()), orderRef, Reversal, outcome)
    {
      ModificationEffect(Snapshot(), orderRef, Reversal, outcome);
      if orderRef !in records {
        // the lookup throws inside the try; the catch's reply then throws, as `err.statusCode` is undefined
        return Crashed;
      }
      match outcome
      case GatewayRejected(code) =>
        reply := Failed(code);
      case GatewayAccepted(psp) =>
        Stamp(orderRef, RefundInitiated, psp);
        reply := Forwarded(psp);
    }

    /** POST /api/capturePayment: every error, a failed lookup included, is answered with 400. */
    method CapturePayment(orderRef: string, outcome: GatewayOutcome) returns (reply: ModificationReply)
      requires Valid()
      modifies this
      ensures Valid()
      ensures Snapshot() == ModificationStep(old(Snapshot()), orderRef, CaptureCall, outcome)
      ensures reply == ModificationReplyFor(old(Snapshot()), orderRef, CaptureCall, outcome)
    {
      ModificationEffect(Snapshot(), orderRef, CaptureCall, outcome);
      if orderRef !in records {
        return Failed(400);
      }
      match outcome
      case GatewayRejected(_) =>
        reply := Failed(400);
      case GatewayAccepted(psp) =>
        Stamp(orderRef, CaptureInitiated, psp);
        reply := Forwarded(psp);
    }

    /** POST /api/cancelPayment: the lookup sits outside the try, so an unknown reference crashes. */
    method CancelPayment(orderRef: string, outcome: GatewayOutcome) returns (reply: ModificationReply)
      requires Valid()
      modifies this
      ensures Valid()
      ensures Snapshot() == ModificationStep(old(Snapshot()), orderRef, CancelCall, outcome)
      ensures reply == ModificationReplyFor(old(Snapshot()), orderRef, CancelCall, outcome)
    {
      ModificationEffect(Snapshot(), orderRef, CancelCall, outcome);
      if orderRef !in records {
        return Crashed;
      }
      match outcome
      case GatewayRejected(code) =>
        reply := Failed(code);
      case GatewayAccepted(psp) =>
        Stamp(orderRef, CancelInitiated, psp);
        reply := Forwarded(psp);
    }

    /** POST /api/refundPayment: like cancelPayment, with the refund label. */
    method RefundPayment(orderRef: string, outcome: GatewayOutcome) returns (reply: ModificationReply)
      requires Valid()
      modifies this
      ensures Valid()
      ensures Snapshot() == ModificationStep(old(Snapshot()), orderRef, RefundCall, outcome)
      ensures reply == ModificationReplyFor(old(Snapshot()), orderRef, RefundCall, outcome)
    {
      ModificationEffect(Snapshot(), orderRef, RefundCall, outcome);
      if orderRef !in records {
        return Crashed;
      }
      match outcome
      case GatewayRejected(code) =>
        reply := Failed(code);
      case GatewayAccepted(psp) =>
        Stamp(orderRef, RefundInitiated, psp);
        reply := Forwarded(psp);
    }

    /** The record under `k` gets status `st`. */
    method SetRecordStatus(k: string, st: Status)
      requires k in records
      modifies this`records
      ensures Snapshot() == SetStatus(old(Snapshot()), k, st)
    {
      records := records[k := records[k].(status := Some(st))];
    }

    /** The body of the webhook's `forEach` callback for one `NotificationRequestItem`. */
    method ProcessItem(item: NotificationItem)
      requires Valid()
      modifies this
      ensures Valid()
      ensures Snapshot() == ApplyItem(old(Snapshot()), item)
    {
      ItemTouchesAtMostOne(Snapshot(), item);
      if item.hmac == HmacThrows {
        // the validator threw: the per-item catch logs it
        return;
      }
      if item.hmac == HmacInvalid {
        return;
      }
      if item.success != "true" {
        return;
      }
      if item.eventCode == "AUTHORISATION" {
        if item.merchantReference in records {
          var k := item.merchantReference;
          records := records[k := records[k].(status := Some(Authorised))];
          records := records[k := records[k].(paymentRef := Some(item.pspReference))];
        }
      } else if item.eventCode == "CANCEL_OR_REFUND" {
        var payment := FindPayment(Snapshot(), item.pspReference);
        if payment.Some? {
          if RefundAction(item.additionalData) {
            SetRecordStatus(payment.value, Refunded);
          } else {
            SetRecordStatus(payment.value, Cancelled);
          }
        }
      } else if item.eventCode == "CAPTURE" {
        var payment := FindPayment(Snapshot(), item.pspReference);
        if payment.Some? {
          SetRecordStatus(payment.value, Captured);
        }
      } else if item.eventCode == "CANCELLATION" {
        var payment := FindPayment(Snapshot(), item.pspReference);
        if payment.Some? {
          // the inner test of `success`, already decided by the outer guard
          SetRecordStatus(payment.value, if Truthy(item.success) then Cancelled else Authorised);
        }
      } else if item.eventCode == "REFUND" {
        var payment := FindPayment(Snapshot(), item.pspReference);
        if payment.Some? {
          // the inner test of `success`, already decided by the outer guard
          SetRecordStatus(payment.value, if Truthy(item.success) then Refunded else Captured);
        }
      }
    }

    /**
     * POST /api/webhook/notification: the items in array order, then
     * "[accepted]"; a null element ends the loop with no reply.
     */
    method HandleNotifications(entries: seq<Entry>) returns (reply: WebhookReply)
      requires Valid()
      modifies this
      ensures Valid()
      ensures Snapshot() == Deliver(old(Snapshot()), entries)
      ensures reply == WebhookReplyFor(entries)
    {
      var i := 0;
      while i < |entries|
        invariant 0 <= i <= |entries|
        invariant Valid()
        invariant NoNull(entries[..i])
        invariant Deliver(old(Snapshot()), entries) == Deliver(Snapshot(), entries[i..])
      {
        match entries[i]
        case NullEntry =>
          return NoReply;
        case Wrapped(item) =>
          assert entries[i..][1..] == entries[i + 1..];
          ProcessItem(item);
          assert entries[..i + 1] == entries[..i] + [entries[i]];
          i := i + 1;
      }
      assert entries[..i] == entries;
      reply := AcceptedReply;
    }
  }
}
