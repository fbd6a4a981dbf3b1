/** What the controller exchanges with the SnapTrade SDK and with its HTTP
    caller. Every SDK call is an oracle: the handler records the call in its
    trace and receives an outcome supplied from outside. */
module SnapTradeApi {
  import opened JsValues

  /** The fields of request bodies and SDK params objects the controller
      reads or writes, named after their JSON keys. */
  datatype Key =
    | UserId | UserSecret | Broker | BrokerId | AccountId | Account_id
    | Action | Universal_symbol_id | Symbol | Order_type | Time_in_force
    | Price | Stop | Units | Notional_value | TradeId | Wait_to_confirm
    | Brokerage_order_id | StartDate | EndDate | Offset | Limit | Type

  /** A plain object (a request body, a params object); keys the controller
      never reads are left out. */
  type JsObject = map<Key, JsVal>

  /** Property read `o.k` (also what destructuring `const { k } = o` binds):
      `undefined` when the key is absent. */
  function Get(o: JsObject, k: Key): JsVal {
    if k in o then o[k] else Undefined
  }

  /** `o.k` is truthy: it passes the guard `if (!o.k) throw ...`. */
  predicate HasTruthy(o: JsObject, k: Key) {
    Truthy(Get(o, k))
  }

  /** An awaited SDK promise: it resolves with data or it rejects. */
  datatype Outcome<+T> = Resolved(value: T) | Rejected

  /** `conn.brokerage` of a brokerage authorization. */
  datatype Brokerage = Brokerage(id: JsVal, slug: Option<string>, name: JsVal, logoUrl: JsVal)

  /** One brokerage authorization as `listBrokerageAuthorizations` lists it;
      `brokerage` is None when it is null or undefined. */
  datatype Authorization = Authorization(id: JsVal, brokerage: Option<Brokerage>, disabled: JsVal)

  /** The entry `getAllConnections` returns for one authorization. */
  datatype ConnectionSummary = ConnectionSummary(id: JsVal, brokerName: JsVal, logoUrl: JsVal, disabled: JsVal)

  /** One account as `listUserAccounts` lists it. */
  datatype Account = Account(
    id: JsVal, name: JsVal, number: JsVal, institutionName: JsVal,
    balance: Option<Balance>, status: JsVal, meta: Option<AccountMeta>)
  datatype Balance = Balance(total: JsVal)
  datatype AccountMeta = AccountMeta(accountType: JsVal)

  /** The entry `getAllAccounts` returns for one account. */
  datatype AccountSummary = AccountSummary(
    id: JsVal, name: JsVal, number: JsVal, institutionName: JsVal,
    balance: JsVal, status: JsVal, accountType: JsVal)

  /** One activity (transaction) as `getAccountActivities` lists it. */
  datatype Activity = Activity(
    id: JsVal, symbol: Option<ActivitySymbol>, description: JsVal, activityType: JsVal,
    optionType: JsVal, units: JsVal, price: JsVal, amount: JsVal, currency: Option<Currency>,
    tradeDate: JsVal, settlementDate: JsVal, fee: JsVal, institution: JsVal)
  datatype ActivitySymbol = ActivitySymbol(symbol: JsVal)
  datatype Currency = Currency(code: JsVal)

  /** A page of activities: `data` (absent or null is None) and `pagination`. */
  datatype ActivitiesPage = ActivitiesPage(data: Option<seq<Activity>>, pagination: JsVal)

  /** The entry `getTransactionHistory` returns for one activity. */
  datatype Transaction = Transaction(
    id: JsVal, symbol: JsVal, description: JsVal, transactionType: JsVal,
    optionType: JsVal, units: JsVal, price: JsVal, amount: JsVal, currency: JsVal,
    tradeDate: JsVal, settlementDate: JsVal, fee: JsVal, institution: JsVal)

  /** The query object passed to `getAccountActivities`. */
  datatype ActivitiesQuery = ActivitiesQuery(
    accountId: JsVal, userId: JsVal, userSecret: JsVal, startDate: JsVal,
    endDate: JsVal, offset: JsVal, limit: JsVal, activityType: JsVal)

  /** One SDK call, with the arguments the handler passes. */
  datatype Call =
    | ListBrokerageAuthorizations(userId: JsVal, userSecret: JsVal)
    | RefreshBrokerageAuthorization(authorizationId: JsVal, userId: JsVal, userSecret: JsVal)
    | RegisterSnapTradeUser(userId: JsVal)
    | LoginSnapTradeUser(userId: JsVal, userSecret: JsVal, broker: JsVal, immediateRedirect: bool)
    | ListUserAccounts(userId: JsVal, userSecret: JsVal)
    | GetAccountActivities(query: ActivitiesQuery)
    | GetOrderImpact(params: JsObject)
    | PlaceOrder(userId: JsVal, userSecret: JsVal, tradeId: JsVal, waitToConfirm: JsVal)
    | CancelUserAccountOrder(userId: JsVal, userSecret: JsVal, accountId: JsVal, brokerageOrderId: JsVal)
    | PlaceForceOrder(params: JsObject)

  /** The JSON body of a response. */
  datatype Payload =
    | ErrorBody(error: string)
    | ExistingConnection(message: string, userSecret: JsVal, existingConnectionId: JsVal, broker: JsVal)
    | ConnectionInitiated(message: string, userSecret: JsVal, connectionStatus: JsVal)
    | ConnectionCheck(hasActiveConnection: bool, connections: seq<Authorization>)
    | ConnectionListing(summaries: seq<ConnectionSummary>)
    | AccountListing(accounts: seq<AccountSummary>)
    | TransactionListing(transactions: seq<Transaction>, pagination: JsVal)
    | TradeResult(message: string, data: JsVal)

  /** What the handler does with the response object: it sends one response,
      or its promise rejects and nothing is sent. */
  datatype Reply = Sent(status: int, payload: Payload) | Unanswered

  /** How `err instanceof BadRequestError` evaluates. `BadRequestError` is an
      arrow function, which has no `prototype`: compiled as a native arrow the
      test throws a TypeError inside the catch block; down-levelled to a
      `function` expression it is false. */
  datatype InstanceofCheck = ReturnsFalse | Throws

  /** The catch blocks that test `instanceof BadRequestError` before answering
      500 with `message`. The 400 branch is never taken. */
  function CatchReply(check: InstanceofCheck, message: string): (r: Reply)
    ensures check == Throws <==> r == Unanswered
    ensures r.Sent? ==> r == Sent(500, ErrorBody(message))
  {
    match check
    case Throws => Unanswered
    case ReturnsFalse => Sent(500, ErrorBody(message))
  }
}
