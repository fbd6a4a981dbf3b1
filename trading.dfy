/** The trading handlers of the controller: `checkOrderImpact`,
    `placeCheckedOrder`, `cancelOrder` and `placeOrder`. */
module Trading {
  import opened JsValues
  import opened SnapTradeApi

  const ImpactFailed := "Failed to check order impact"
  const CheckedOrderFailed := "Failed to place checked order"
  const CancelFailed := "Failed to cancel order"
  const ForceOrderFailed := "Failed to place order"

  /** The order fields copied only when they are not `undefined`. */
  const OptionalOrderFields: set<Key> := {Price, Stop, Units, Notional_value}

  /** The fields `checkOrderImpact` requires and always sends. */
  const ImpactFields: set<Key> :=
    {UserId, UserSecret, Account_id, Action, Universal_symbol_id, Order_type, Time_in_force}

  /** The fields `placeOrder` requires (besides an instrument) and always sends. */
  const ForceOrderFields: set<Key> :=
    {UserId, UserSecret, Account_id, Action, Order_type, Time_in_force}

  /** The params object carries field `k` with the body's value. */
  predicate Copied(body: JsObject, params: JsObject, k: Key) {
    k in params && params[k] == Get(body, k)
  }

  /** Field `k` is in the params object iff it is not `undefined` in the body,
      and then with the body's value: 0, "", false and null included. */
  predicate CopiedIfDefined(body: JsObject, params: JsObject, k: Key) {
    (k in params <==> Get(body, k) != Undefined) && (k in params ==> params[k] == Get(body, k))
  }

  /** `CopiedIfDefined` for each of the four optional order fields. */
  predicate CopiesDefinedOptionals(body: JsObject, params: JsObject) {
    && CopiedIfDefined(body, params, Price) && CopiedIfDefined(body, params, Stop)
    && CopiedIfDefined(body, params, Units) && CopiedIfDefined(body, params, Notional_value)
  }

  /** The params object carries the fields both order builders send. */
  predicate CopiesAccountFields(body: JsObject, params: JsObject) {
    && Copied(body, params, UserId) && Copied(body, params, UserSecret)
    && Copied(body, params, Account_id) && Copied(body, params, Action)
    && Copied(body, params, Order_type) && Copied(body, params, Time_in_force)
  }

  /** `if (x !== undefined) params.x = x` for the four optional order fields. */
  method CopyDefinedOptionals(body: JsObject, params: JsObject) returns (out: JsObject)
    requires Price !in params && Stop !in params && Units !in params && Notional_value !in params
    ensures CopiesDefinedOptionals(body, out)
    ensures forall k | k in params :: k in out && out[k] == params[k]
    ensures forall k | k in out :: k in params || k in OptionalOrderFields
  {
    out := params;
    if Get(body, Price) != Undefined { out := out[Price := Get(body, Price)]; }
    if Get(body, Stop) != Undefined { out := out[Stop := Get(body, Stop)]; }
    if Get(body, Units) != Undefined { out := out[Units := Get(body, Units)]; }
    if Get(body, Notional_value) != Undefined { out := out[Notional_value := Get(body, Notional_value)]; }
  }

  // ---------------------------------------------------------------------------
  // checkOrderImpact

  /** The required fields of `checkOrderImpact` are all truthy. */
  predicate ImpactGuard(body: JsObject) {
    forall k | k in ImpactFields :: HasTruthy(body, k)
  }

  /** The `params` object `checkOrderImpact` passes to `getOrderImpact`. */
  method ImpactParams(body: JsObject) returns (params: JsObject)
    ensures CopiesAccountFields(body, params) && Copied(body, params, Universal_symbol_id)
    ensures CopiesDefinedOptionals(body, params)
    ensures forall k | k in params :: k in ImpactFields || k in OptionalOrderFields
  {
    params := map[
      UserId := Get(body, UserId),
      UserSecret := Get(body, UserSecret),
      Account_id := Get(body, Account_id),
      Action := Get(body, Action),
      Universal_symbol_id := Get(body, Universal_symbol_id),
      Order_type := Get(body, Order_type),
      Time_in_force := Get(body, Time_in_force)];
    params := CopyDefinedOptionals(body, params);
  }

  /** `checkOrderImpact(req, res)`; `impact` is the outcome of `getOrderImpact`. */
  method CheckOrderImpact(body: JsObject, impact: Outcome<JsVal>, check: InstanceofCheck)
    returns (calls: seq<Call>, reply: Reply)
    ensures !ImpactGuard(body) ==> calls == [] && reply == CatchReply(check, ImpactFailed)
    ensures ImpactGuard(body) ==> (
      && |calls| == 1 && calls[0].GetOrderImpact?
      && CopiesAccountFields(body, calls[0].params) && Copied(body, calls[0].params, Universal_symbol_id)
      && CopiesDefinedOptionals(body, calls[0].params)
      && (forall k | k in calls[0].params :: k in ImpactFields || k in OptionalOrderFields)
      && reply == (if impact.Resolved? then Sent(200, TradeResult("Order impact fetched successfully", impact.value))
                   else CatchReply(check, ImpactFailed)))
    ensures reply.Sent? ==> reply.status != 400
  {
    calls := [];
    if !ImpactGuard(body) {
      reply := CatchReply(check, ImpactFailed);
      return;
    }
    var params := ImpactParams(body);
    calls := calls + [GetOrderImpact(params)];
    if impact.Rejected? {
      reply := CatchReply(check, ImpactFailed);
      return;
    }
    reply := Sent(200, TradeResult("Order impact fetched successfully", impact.value));
  }

  // ---------------------------------------------------------------------------
  // placeCheckedOrder

  /** The required fields of `placeCheckedOrder` are all truthy. */
  predicate CheckedOrderGuard(body: JsObject) {
    HasTruthy(body, UserId) && HasTruthy(body, UserSecret) && HasTruthy(body, TradeId)
  }

  /** `placeCheckedOrder(req, res)`; `placed` is the outcome of `placeOrder`. */
  method PlaceCheckedOrder(body: JsObject, placed: Outcome<JsVal>, check: InstanceofCheck)
    returns (calls: seq<Call>, reply: Reply)
    ensures !CheckedOrderGuard(body) ==> calls == [] && reply == CatchReply(check, CheckedOrderFailed)
    ensures CheckedOrderGuard(body) ==> (
      && |calls| == 1 && calls[0].PlaceOrder?
      && calls[0].userId == Get(body, UserId) && calls[0].userSecret == Get(body, UserSecret)
      && calls[0].tradeId == Get(body, TradeId)
      // wait_to_confirm defaults to true only when it is undefined
      && (Get(body, Wait_to_confirm) == Undefined ==> calls[0].waitToConfirm == Bool(true))
      && (Get(body, Wait_to_confirm) != Undefined ==> calls[0].waitToConfirm == Get(body, Wait_to_confirm))
      && reply == (if placed.Resolved? then Sent(200, TradeResult("Order placed successfully", placed.value))
                   else CatchReply(check, CheckedOrderFailed)))
    ensures reply.Sent? ==> reply.status != 400
  {
    var userId, userSecret, tradeId, waitToConfirm :=
      Get(body, UserId), Get(body, UserSecret), Get(body, TradeId), Get(body, Wait_to_confirm);
    calls := [];
    if !Truthy(userId) || !Truthy(userSecret) || !Truthy(tradeId) {
      reply := CatchReply(check, CheckedOrderFailed);
      return;
    }
    calls := calls + [PlaceOrder(userId, userSecret, tradeId, if waitToConfirm == Undefined then Bool(true) else waitToConfirm)];
    if placed.Rejected? {
      reply := CatchReply(check, CheckedOrderFailed);
      return;
    }
    reply := Sent(200, TradeResult("Order placed successfully", placed.value));
  }

  // ---------------------------------------------------------------------------
  // cancelOrder

  /** The required fields of `cancelOrder` are all truthy. A blank order id
      such as "  " is truthy and passes. */
  predicate CancelGuard(body: JsObject) {
    HasTruthy(body, UserId) && HasTruthy(body, UserSecret)
    && HasTruthy(body, AccountId) && HasTruthy(body, Brokerage_order_id)
  }

  /** `cancelOrder(req, res)`; `cancelled` is the outcome of `cancelUserAccountOrder`. */
  method CancelOrder(body: JsObject, cancelled: Outcome<JsVal>, check: InstanceofCheck)
    returns (calls: seq<Call>, reply: Reply)
    ensures !CancelGuard(body) ==> calls == [] && reply == CatchReply(check, CancelFailed)
    ensures CancelGuard(body) ==> (
      && calls == [CancelUserAccountOrder(Get(body, UserId), Get(body, UserSecret),
                                          Get(body, AccountId), Get(body, Brokerage_order_id))]
      && reply == (if cancelled.Resolved? then Sent(200, TradeResult("Order cancellation attempted", cancelled.value))
                   else CatchReply(check, CancelFailed)))
    ensures reply.Sent? ==> reply.status != 400
  {
    var userId, userSecret, accountId, orderId :=
      Get(body, UserId), Get(body, UserSecret), Get(body, AccountId), Get(body, Brokerage_order_id);
    calls := [];
    if !Truthy(userId) || !Truthy(userSecret) || !Truthy(accountId) || !Truthy(orderId) {
      reply := CatchReply(check, CancelFailed);
      return;
    }
    calls := calls + [CancelUserAccountOrder(userId, userSecret, accountId, orderId)];
    if cancelled.Rejected? {
      reply := CatchReply(check, CancelFailed);
      return;
    }
    reply := Sent(200, TradeResult("Order cancellation attempted", cancelled.value));
  }

  // ---------------------------------------------------------------------------
  // placeOrder

  /** The required fields of `placeOrder` are all truthy, and at least one of
      `universal_symbol_id` and `symbol` is. */
  predicate ForceOrderGuard(body: JsObject) {
    && (forall k | k in ForceOrderFields :: HasTruthy(body, k))
    && (HasTruthy(body, Universal_symbol_id) || HasTruthy(body, Symbol))
  }

  /** Exactly one addressing mode: a truthy `universal_symbol_id` is sent with
      `symbol` nulled, even when a symbol was given too; otherwise `symbol` is
      sent with `universal_symbol_id` nulled. */
  predicate AddressesOneInstrument(body: JsObject, params: JsObject) {
    && Universal_symbol_id in params && Symbol in params
    && (HasTruthy(body, Universal_symbol_id) ==>
          params[Universal_symbol_id] == Get(body, Universal_symbol_id) && params[Symbol] == Null)
    && (!HasTruthy(body, Universal_symbol_id) ==>
          params[Symbol] == Get(body, Symbol) && params[Universal_symbol_id] == Null)
  }

  /** The instrument step of `placeOrder`: set exactly one of the two instrument fields from the
      body and null the other. */
  method SetInstrument(body: JsObject, params: JsObject) returns (out: JsObject)
    requires Universal_symbol_id !in params && Symbol !in params
    ensures AddressesOneInstrument(body, out)
    ensures forall k | k in params :: k in out && out[k] == params[k]
    ensures forall k | k in out :: k in params || k == Universal_symbol_id || k == Symbol
  {
    if Truthy(Get(body, Universal_symbol_id)) {
      out := params[Universal_symbol_id := Get(body, Universal_symbol_id)];
      out := out[Symbol := Null];
    } else {
      out := params[Symbol := Get(body, Symbol)];
      out := out[Universal_symbol_id := Null];
    }
  }

  /** The object literal `placeOrder` starts its params from: the six account and order fields. */
  function AccountFields(body: JsObject): (params: JsObject)
    ensures CopiesAccountFields(body, params)
    ensures Universal_symbol_id !in params && Symbol !in params
    ensures Price !in params && Stop !in params && Units !in params && Notional_value !in params
    ensures forall k | k in params :: k in ForceOrderFields
  {
    map[
      UserId := Get(body, UserId),
      UserSecret := Get(body, UserSecret),
      Account_id := Get(body, Account_id),
      Action := Get(body, Action),
      Order_type := Get(body, Order_type),
      Time_in_force := Get(body, Time_in_force)]
  }

  /** The `params` object `placeOrder` passes to `placeForceOrder`. */
  method ForceOrderParams(body: JsObject) returns (params: JsObject)
    ensures CopiesAccountFields(body, params)
    ensures AddressesOneInstrument(body, params)
    ensures CopiesDefinedOptionals(body, params)
    ensures forall k | k in params :: k in ForceOrderFields || k == Universal_symbol_id || k == Symbol || k in OptionalOrderFields
  {
    params := AccountFields(body);
    params := SetInstrument(body, params);
    params := CopyDefinedOptionals(body, params);
  }

  /** `placeOrder(req, res)`; `placed` is the outcome of `placeForceOrder`. */
  method PlaceForceOrder(body: JsObject, placed: Outcome<JsVal>, check: InstanceofCheck)
    returns (calls: seq<Call>, reply: Reply)
    ensures !ForceOrderGuard(body) ==> calls == [] && reply == CatchReply(check, ForceOrderFailed)
    ensures ForceOrderGuard(body) ==> (
      && |calls| == 1 && calls[0].PlaceForceOrder?
      && CopiesAccountFields(body, calls[0].params)
      && AddressesOneInstrument(body, calls[0].params)
      && CopiesDefinedOptionals(body, calls[0].params)
      && (forall k | k in calls[0].params :: k in ForceOrderFields || k == Universal_symbol_id || k == Symbol || k in OptionalOrderFields)
      && reply == (if placed.Resolved? then Sent(200, TradeResult("Order placed successfully", placed.value))
                   else CatchReply(check, ForceOrderFailed)))
    ensures reply.Sent? ==> reply.status != 400
  {
    calls := [];
    if !ForceOrderGuard(body) {
      reply := CatchReply(check, ForceOrderFailed);
      return;
    }
    var params := ForceOrderParams(body);
    calls := calls + [Call.PlaceForceOrder(params)];
    if placed.Rejected? {
      reply := CatchReply(check, ForceOrderFailed);
      return;
    }
    reply := Sent(200, TradeResult("Order placed successfully", placed.value));
  }

  /** Of a force order's two instrument fields, exactly one is null and the
      other is truthy. */
  lemma OneInstrumentSent(body: JsObject, params: JsObject)
    requires ForceOrderGuard(body) && AddressesOneInstrument(body, params)
    ensures (params[Universal_symbol_id] == Null) != (params[Symbol] == Null)
    ensures Truthy(params[Universal_symbol_id]) || Truthy(params[Symbol])
  {
  }
}
