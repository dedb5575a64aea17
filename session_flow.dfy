/**
 * The checkout round trip: the reply of POST /api/sessions, dispatched to
 * the `paymentSession` reducer through the `initiateCheckout` thunk.
 */
module SessionFlow {
  import opened JsValues
  import opened Ledger
  import opened PaymentSlice

  /**
   * A session the gateway opened is stored on the server under `orderRef`,
   * and the browser ends up holding that same `orderRef` and the session;
   * a rejected session leaves the server's store as it was and sets the
   * browser's error to the gateway's message.
   */
  lemma SessionRoundTrip(st: SliceState, s: Store, orderRef: string, outcome: SessionOutcome)
    requires Valid(s)
    requires outcome.SessionRejected? ==> outcome.statusCode >= 300
    ensures var reply := SessionReply(orderRef, outcome);
      var s' := SessionStep(s, orderRef, outcome);
      var d := PaymentSession(st, reply.body, reply.status);
      match outcome
      case SessionOpened(session) =>
        && d == Next(st.(session := session, orderRef := Str(orderRef)))
        && orderRef in s'.records && s'.records[orderRef].reference == orderRef
        && Valid(s')
      case SessionRejected(_, message) =>
        && d == Next(st.(error := Str(message)))
        && s' == s
  {
    SessionEffect(s, orderRef, outcome);
  }
}
