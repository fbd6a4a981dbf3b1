/** The read-only account handlers of the controller: `getAllAccounts` and
    `getTransactionHistory`. */
module AccountData {
  import opened JsValues
  import opened SnapTradeApi

  const AccountsFailed := "An error occurred while fetching accounts"
  const TransactionsFailed := "An error occurred while fetching transactions"

  // ---------------------------------------------------------------------------
  // getAllAccounts

  /** The object the `map` callback of `getAllAccounts` returns for one
      account: the listed fields as they are, and `balance?.total` and
      `meta?.type`, undefined when the record is missing. */
  function SummarizeAccount(a: Account): (r: AccountSummary)
    ensures r.id == a.id && r.name == a.name && r.number == a.number
    ensures r.institutionName == a.institutionName && r.status == a.status
    ensures a.balance.Some? ==> r.balance == a.balance.value.total
    ensures a.balance.None? ==> r.balance == Undefined
    ensures a.meta.Some? ==> r.accountType == a.meta.value.accountType
    ensures a.meta.None? ==> r.accountType == Undefined
  {
    AccountSummary(
      a.id, a.name, a.number, a.institutionName,
      if a.balance.Some? then a.balance.value.total else Undefined,
      a.status,
      if a.meta.Some? then a.meta.value.accountType else Undefined)
  }

  /** The required fields of `getAllAccounts` are all truthy. */
  predicate AccountsGuard(body: JsObject) {
    HasTruthy(body, UserId) && HasTruthy(body, UserSecret)
  }

  /** `getAllAccounts(req, res)`; `listed` is the outcome of `listUserAccounts`
      (its data None when null or undefined). */
  method GetAllAccounts(body: JsObject, listed: Outcome<Option<seq<Account>>>, check: InstanceofCheck)
    returns (calls: seq<Call>, reply: Reply)
    ensures !AccountsGuard(body) ==> calls == [] && reply == CatchReply(check, AccountsFailed)
    ensures AccountsGuard(body) ==> calls == [ListUserAccounts(Get(body, UserId), Get(body, UserSecret))]
    ensures AccountsGuard(body) && listed.Rejected? ==> reply == CatchReply(check, AccountsFailed)
    // one entry per listed account, in order; a missing list is an empty one
    ensures AccountsGuard(body) && listed.Resolved? ==> (
      var accounts := listed.value.GetOr([]);
      && reply.Sent? && reply.status == 200 && reply.payload.AccountListing?
      && |reply.payload.accounts| == |accounts|
      && forall i | 0 <= i < |accounts| :: reply.payload.accounts[i] == SummarizeAccount(accounts[i]))
    ensures reply.Sent? ==> reply.status != 400
  {
    var userId, userSecret := Get(body, UserId), Get(body, UserSecret);
    calls := [];
    if !Truthy(userId) || !Truthy(userSecret) {
      reply := CatchReply(check, AccountsFailed);
      return;
    }
    calls := calls + [ListUserAccounts(userId, userSecret)];
    if listed.Rejected? {
      reply := CatchReply(check, AccountsFailed);
      return;
    }
    var data := listed.value.GetOr([]);
    var accounts := seq(|data|, i requires 0 <= i < |data| => SummarizeAccount(data[i]));
    reply := Sent(200, AccountListing(accounts));
  }

  // ---------------------------------------------------------------------------
  // getTransactionHistory

  /** The object the `map` callback of `getTransactionHistory` returns for
      one activity: `symbol?.symbol` and `currency?.code`, undefined when the
      record is missing, and the other fields as listed. */
  function SummarizeActivity(tx: Activity): (r: Transaction)
    ensures tx.symbol.Some? ==> r.symbol == tx.symbol.value.symbol
    ensures tx.symbol.None? ==> r.symbol == Undefined
    ensures tx.currency.Some? ==> r.currency == tx.currency.value.code
    ensures tx.currency.None? ==> r.currency == Undefined
    ensures r.id == tx.id && r.description == tx.description && r.transactionType == tx.activityType
    ensures r.optionType == tx.optionType && r.units == tx.units && r.price == tx.price && r.amount == tx.amount
    ensures r.tradeDate == tx.tradeDate && r.settlementDate == tx.settlementDate
    ensures r.fee == tx.fee && r.institution == tx.institution
  {
    Transaction(
      tx.id,
      if tx.symbol.Some? then tx.symbol.value.symbol else Undefined,
      tx.description, tx.activityType, tx.optionType, tx.units, tx.price, tx.amount,
      if tx.currency.Some? then tx.currency.value.code else Undefined,
      tx.tradeDate, tx.settlementDate, tx.fee, tx.institution)
  }

  /** The required fields of `getTransactionHistory` are all truthy. */
  predicate TransactionsGuard(body: JsObject) {
    HasTruthy(body, UserId) && HasTruthy(body, UserSecret) && HasTruthy(body, AccountId)
  }

  /** The query object `getTransactionHistory` passes to `getAccountActivities`. */
  function ActivitiesQueryOf(body: JsObject): (q: ActivitiesQuery)
    ensures q.accountId == Get(body, AccountId) && q.userId == Get(body, UserId) && q.userSecret == Get(body, UserSecret)
    // a falsy date or type (also "" and null) is sent as undefined
    ensures Truthy(Get(body, StartDate)) ==> q.startDate == Get(body, StartDate)
    ensures !Truthy(Get(body, StartDate)) ==> q.startDate == Undefined
    ensures Truthy(Get(body, EndDate)) ==> q.endDate == Get(body, EndDate)
    ensures !Truthy(Get(body, EndDate)) ==> q.endDate == Undefined
    ensures Truthy(Get(body, Type)) ==> q.activityType == Get(body, Type)
    ensures !Truthy(Get(body, Type)) ==> q.activityType == Undefined
    // offset falls back to 0 and limit to 1000 whenever they are falsy, 0 included
    ensures Truthy(Get(body, Offset)) ==> q.offset == Get(body, Offset)
    ensures !Truthy(Get(body, Offset)) ==> q.offset == Num(0)
    ensures Truthy(Get(body, Limit)) ==> q.limit == Get(body, Limit)
    ensures !Truthy(Get(body, Limit)) ==> q.limit == Num(1000)
  {
    ActivitiesQuery(
      Get(body, AccountId), Get(body, UserId), Get(body, UserSecret),
      Or(Get(body, StartDate), Undefined),
      Or(Get(body, EndDate), Undefined),
      Or(Get(body, Offset), Num(0)),
      Or(Get(body, Limit), Num(1000)),
      Or(Get(body, Type), Undefined))
  }

  /** Whatever the body holds, the SDK never receives a falsy limit, and the
      only falsy values it can receive are an undefined date or type and an
      offset of 0. */
  lemma QueryHasNoStrayFalsyValue(body: JsObject)
    ensures Truthy(ActivitiesQueryOf(body).limit)
    ensures var q := ActivitiesQueryOf(body);
      && (Truthy(q.startDate) || q.startDate == Undefined)
      && (Truthy(q.endDate) || q.endDate == Undefined)
      && (Truthy(q.activityType) || q.activityType == Undefined)
      && (Truthy(q.offset) || q.offset == Num(0))
  {
  }

  /** `getTransactionHistory(req, res)`; `page` is the outcome of `getAccountActivities`. */
  method GetTransactionHistory(body: JsObject, page: Outcome<ActivitiesPage>, check: InstanceofCheck)
    returns (calls: seq<Call>, reply: Reply)
    ensures !TransactionsGuard(body) ==> calls == [] && reply == CatchReply(check, TransactionsFailed)
    ensures TransactionsGuard(body) ==> calls == [GetAccountActivities(ActivitiesQueryOf(body))]
    ensures TransactionsGuard(body) && page.Rejected? ==> reply == CatchReply(check, TransactionsFailed)
    ensures TransactionsGuard(body) && page.Resolved? ==> (
      var activities := page.value.data.GetOr([]);
      && reply.Sent? && reply.status == 200 && reply.payload.TransactionListing?
      && reply.payload.pagination == page.value.pagination
      && |reply.payload.transactions| == |activities|
      && forall i | 0 <= i < |activities| :: reply.payload.transactions[i] == SummarizeActivity(activities[i]))
    ensures reply.Sent? ==> reply.status != 400
  {
    calls := [];
    if !Truthy(Get(body, UserId)) || !Truthy(Get(body, UserSecret)) || !Truthy(Get(body, AccountId)) {
      reply := CatchReply(check, TransactionsFailed);
      return;
    }
    calls := calls + [GetAccountActivities(ActivitiesQueryOf(body))];
    if page.Rejected? {
      reply := CatchReply(check, TransactionsFailed);
      return;
    }
    var data := page.value.data.GetOr([]);
    var transactions := seq(|data|, i requires 0 <= i < |data| => SummarizeActivity(data[i]));
    reply := Sent(200, TransactionListing(transactions, page.value.pagination));
  }
}
