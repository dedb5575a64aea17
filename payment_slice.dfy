/**
 * The `payment` slice of the browser's Redux store: its initial state and
 * its two reducers. A reducer assigns fields of a draft state, which Immer
 * turns into the next state; a reducer that throws leaves the state as it
 * was and the exception reaches the dispatching code.
 */
module PaymentSlice {
  import opened Options
  import opened JsValues

  datatype SliceState = SliceState(
    error: JsValue,
    session: JsValue,
    orderRef: JsValue,
    paymentDataStoreRes: JsValue,
    config: JsValue)

  /** `initialState`; the static configuration object is a parameter, since part of it is read from the environment. */
  function InitialState(config: JsValue): (st: SliceState)
    ensures st.error.Str? && !Truthy(st.error.s)
    ensures st.config == config
  {
    SliceState(Str(""), Null, Null, Null, config)
  }

  /** The outcome of dispatching an action: the next state, or an exception. */
  datatype Dispatched = Next(state: SliceState) | Threw

  function ElementOr(elems: seq<JsValue>, i: nat): JsValue {
    if i < |elems| then elems[i] else Undefined
  }

  /**
   * Array destructuring `[a, b] = v`: arrays and strings are iterable (a
   * string yields its characters one at a time); any other value throws.
   */
  function Destructure(v: JsValue): Option<(JsValue, JsValue)> {
    match v
    case Arr(elems) => Some((ElementOr(elems, 0), ElementOr(elems, 1)))
    case Str(s) => Some((if |s| > 0 then Str([s[0]]) else Undefined, if |s| > 1 then Str([s[1]]) else Undefined))
    case _ => None
  }

  /** The `paymentSession` reducer, applied to the payload `[res, status]`. */
  function PaymentSession(state: SliceState, res: JsValue, status: int): (d: Dispatched)
    ensures d.Threw? <==> status < 300 && !res.Arr? && !res.Str?
    ensures d.Next? ==> d.state.paymentDataStoreRes == state.paymentDataStoreRes && d.state.config == state.config
  {
    if status >= 300 then Next(state.(error := res))
    else match Destructure(res)
      case None => Threw
      case Some((session, orderRef)) => Next(state.(session := session, orderRef := orderRef))
  }

  /** The `paymentDataStore` reducer, applied to the payload `[res, status]`. */
  function PaymentDataStore(state: SliceState, res: JsValue, status: int): (st: SliceState)
    ensures st.session == state.session && st.orderRef == state.orderRef && st.config == state.config
    ensures st.error == state.error || st.paymentDataStoreRes == state.paymentDataStoreRes
  {
    if status >= 300 then state.(error := res) else state.(paymentDataStoreRes := res)
  }

  /** The initial state carries no error (the empty string is falsy) and no session. */
  lemma InitialStateIsEmpty(config: JsValue)
    ensures var st := InitialState(config);
      && st.error.Str? && !Truthy(st.error.s)
      && st.session == Null && st.orderRef == Null && st.paymentDataStoreRes == Null
      && st.config == config
  {
  }

  /**
   * `paymentSession` records an error at status 300 and above, leaving the
   * session alone; below 300 it stores the pair's two elements and keeps the
   * error, even a stale one. It never touches any other field.
   */
  lemma PaymentSessionEffect(state: SliceState, res: JsValue, status: int)
    ensures var d := PaymentSession(state, res, status);
      && (status >= 300 ==> d == Next(state.(error := res)))
      && (status < 300 ==> (d.Next? <==> res.Arr? || res.Str?))
      && (status < 300 && d.Next? ==>
            && d.state.error == state.error
            && (res.Arr? && |res.elems| >= 2 ==> d.state.session == res.elems[0] && d.state.orderRef == res.elems[1]))
      && (d.Next? ==> d.state.paymentDataStoreRes == state.paymentDataStoreRes && d.state.config == state.config)
      && (d.Next? && d.state.error != state.error ==> status >= 300)
  {
  }

  /**
   * `paymentDataStore` records an error at status 300 and above, leaving the
   * stored dump alone; below 300 it replaces the dump and keeps the error.
   */
  lemma PaymentDataStoreEffect(state: SliceState, res: JsValue, status: int)
    ensures var st := PaymentDataStore(state, res, status);
      && st.session == state.session && st.orderRef == state.orderRef && st.config == state.config
      && (status >= 300 ==> st.error == res && st.paymentDataStoreRes == state.paymentDataStoreRes)
      && (status < 300 ==> st.paymentDataStoreRes == res && st.error == state.error)
  {
  }

  /** The threshold is exact: 299 takes the success branch, 300 the error branch. */
  lemma StatusThreshold(state: SliceState, res: JsValue)
    ensures PaymentSession(state, res, 300) == Next(state.(error := res))
    ensures PaymentDataStore(state, res, 300) == state.(error := res)
    ensures PaymentDataStore(state, res, 299) == state.(paymentDataStoreRes := res)
    ensures res.Arr? && |res.elems| == 2 ==>
      PaymentSession(state, res, 299) == Next(state.(session := res.elems[0], orderRef := res.elems[1]))
  {
  }

  /** Dispatching the same action twice is the same as dispatching it once. */
  lemma ReducersIdempotent(state: SliceState, res: JsValue, status: int)
    ensures PaymentDataStore(PaymentDataStore(state, res, status), res, status) == PaymentDataStore(state, res, status)
    ensures PaymentSession(state, res, status).Next? ==>
      PaymentSession(PaymentSession(state, res, status).state, res, status) == PaymentSession(state, res, status)
  {
  }

  /** A success after a failure does not clear the earlier error. */
  lemma StaleErrorKept(state: SliceState, failure: JsValue, failStatus: int, session: JsValue, orderRef: JsValue, okStatus: int)
    requires failStatus >= 300 && okStatus < 300
    ensures var failed := PaymentSession(state, failure, failStatus).state;
      PaymentSession(failed, Arr([session, orderRef]), okStatus) == Next(failed.(session := session, orderRef := orderRef))
      && failed.error == failure
  {
  }
}
