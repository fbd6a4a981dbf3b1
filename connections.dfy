/** The brokerage-connection handlers of the controller: `connectSnaptradeBroker`,
    `checkBrokerConnection` and `getAllConnections`. */
module Connections {
  import opened JsValues
  import opened JsStrings
  import opened SnapTradeApi

  const ConnectFailed := "An error occurred while connecting to the broker"
  const LoginFailed := "Failed to refresh existing connection"
  const CheckFailed := "An error occurred while checking broker connection"
  const ListingFailed := "An error occurred while fetching connections"
  const ExistingPrefix := "Existing connection found; refresh triggered for broker "
  const Initiated := "Broker connection initiated"

  // ---------------------------------------------------------------------------
  // connectSnaptradeBroker

  /** The `find` callback with `broker.toLowerCase()` evaluated to `wanted`:
      the slug matches case-insensitively and the authorization is not disabled. */
  predicate IsExistingFor(a: Authorization, wanted: string) {
    && a.brokerage.Some?
    && a.brokerage.value.slug.Some?
    && ToLowerCase(a.brokerage.value.slug.value) == wanted
    && !Truthy(a.disabled)
  }

  /** The index `Array.prototype.find` stops at: the first matching entry. */
  function FirstExisting(list: seq<Authorization>, wanted: string): (r: Option<nat>)
    ensures r.Some? ==> r.value < |list| && IsExistingFor(list[r.value], wanted)
    ensures r.Some? ==> forall j | 0 <= j < r.value :: !IsExistingFor(list[j], wanted)
    ensures r.None? <==> forall j | 0 <= j < |list| :: !IsExistingFor(list[j], wanted)
  {
    if |list| == 0 then None
    else if IsExistingFor(list[0], wanted) then Some(0)
    else
      match FirstExisting(list[1..], wanted)
      case None =>
        assert forall j | 1 <= j < |list| :: list[j] == list[1..][j - 1];
        None
      case Some(i) =>
        assert forall j | 1 <= j <= i :: list[j] == list[1..][j - 1];
        Some(i + 1)
  }

  /** The three ways the `find` in `connectSnaptradeBroker` can end. */
  datatype Search = Found(index: nat) | NoMatch | TypeError

  /** The search for an existing connection: the first enabled authorization
      whose brokerage slug equals the broker, compared in lower case. The callback evaluates `broker.toLowerCase()` on every entry, so a
      (truthy) broker that is not a string throws as soon as there is one entry. */
  function FindExisting(list: seq<Authorization>, broker: JsVal): (r: Search)
    ensures r.TypeError? <==> |list| > 0 && !broker.Str?
    ensures r.Found? ==> (broker.Str? && r.index < |list| && IsExistingFor(list[r.index], ToLowerCase(broker.s))
      && forall j | 0 <= j < r.index :: !IsExistingFor(list[j], ToLowerCase(broker.s)))
    ensures r.NoMatch? && broker.Str? ==> forall j | 0 <= j < |list| :: !IsExistingFor(list[j], ToLowerCase(broker.s))
  {
    if |list| == 0 then NoMatch
    else if !broker.Str? then TypeError
    else
      match FirstExisting(list, ToLowerCase(broker.s))
      case Some(i) => Found(i)
      case None => NoMatch
  }

  /** `existingConnection && existingConnection.id`: the id to refresh, when
      the first match has a truthy id. */
  function ExistingId(list: seq<Authorization>, broker: JsVal): (r: Option<JsVal>)
    ensures r.Some? <==> FindExisting(list, broker).Found? && Truthy(list[FindExisting(list, broker).index].id)
    ensures r.Some? ==> Truthy(r.value) && r.value == list[FindExisting(list, broker).index].id
  {
    match FindExisting(list, broker)
    case Found(i) => if Truthy(list[i].id) then Some(list[i].id) else None
    case _ => None
  }

  /** The client sends the broker upper-cased; the server's case-insensitive
      match finds the same authorization either way. */
  lemma UpperCasedBrokerFindsSame(list: seq<Authorization>, broker: string)
    ensures FindExisting(list, Str(ToUpperCase(broker))) == FindExisting(list, Str(broker))
  {
    LowerOfUpper(broker);
  }

  /** `connectSnaptradeBroker(req, res)`. The outcomes of the SDK calls it may
      make are given: the listing, the refresh (awaited and then not consulted,
      only logged on failure), the registration (its data is the issued
      `userSecret`) and the login (its data is the `connectionStatus`). */
  method ConnectSnaptradeBroker(
    body: JsObject,
    listing: Outcome<seq<Authorization>>,
    refresh: Outcome<JsVal>,
    registration: Outcome<JsVal>,
    login: Outcome<JsVal>)
    returns (calls: seq<Call>, reply: Reply)
    // validation failure: no SDK call, and the own catch answers 500 (not 400)
    ensures !Truthy(Get(body, UserId)) || !Truthy(Get(body, Broker))
      ==> calls == [] && reply == Sent(500, ErrorBody(ConnectFailed))
    // a secret was supplied: list first, never register
    ensures Truthy(Get(body, UserId)) && Truthy(Get(body, Broker)) && Truthy(Get(body, UserSecret))
      ==> (|calls| >= 1 && calls[0] == ListBrokerageAuthorizations(Get(body, UserId), Get(body, UserSecret))
        && forall c | c in calls :: !c.RegisterSnapTradeUser?)
    ensures Truthy(Get(body, UserId)) && Truthy(Get(body, Broker)) && Truthy(Get(body, UserSecret))
      && (listing.Rejected? || FindExisting(listing.value, Get(body, Broker)).TypeError?)
      ==> (calls == [ListBrokerageAuthorizations(Get(body, UserId), Get(body, UserSecret))]
        && reply == Sent(500, ErrorBody(ConnectFailed)))
    // refresh path: exactly one refresh, of the first match, and its id is returned
    ensures Truthy(Get(body, UserId)) && Truthy(Get(body, Broker)) && Truthy(Get(body, UserSecret))
      && listing.Resolved? && ExistingId(listing.value, Get(body, Broker)).Some?
      ==> (var id := ExistingId(listing.value, Get(body, Broker)).value;
          calls == [ListBrokerageAuthorizations(Get(body, UserId), Get(body, UserSecret)),
                    RefreshBrokerageAuthorization(id, Get(body, UserId), Get(body, UserSecret))]
          && reply == Sent(200, ExistingConnection(ExistingPrefix + Get(body, Broker).s,
                                                   Get(body, UserSecret), id, Get(body, Broker))))
    // login path: nothing to refresh, log in with the supplied secret
    ensures Truthy(Get(body, UserId)) && Truthy(Get(body, Broker)) && Truthy(Get(body, UserSecret))
      && listing.Resolved? && !FindExisting(listing.value, Get(body, Broker)).TypeError?
      && ExistingId(listing.value, Get(body, Broker)).None?
      ==> (calls == [ListBrokerageAuthorizations(Get(body, UserId), Get(body, UserSecret)),
                    LoginSnapTradeUser(Get(body, UserId), Get(body, UserSecret), Get(body, Broker), true)]
          && reply == (if login.Resolved?
                       then Sent(200, ConnectionInitiated(Initiated, Get(body, UserSecret), login.value))
                       else Sent(500, ErrorBody(LoginFailed))))
    // no secret: register, then log in with the issued secret and return it
    ensures Truthy(Get(body, UserId)) && Truthy(Get(body, Broker)) && !Truthy(Get(body, UserSecret))
      ==> (|calls| >= 1 && calls[0] == RegisterSnapTradeUser(Get(body, UserId))
        && (registration.Rejected? ==> calls == [calls[0]] && reply == Sent(500, ErrorBody(ConnectFailed)))
        && (registration.Resolved? ==>
              (calls == [calls[0], LoginSnapTradeUser(Get(body, UserId), registration.value, Get(body, Broker), true)]
              && reply == (if login.Resolved?
                           then Sent(200, ConnectionInitiated(Initiated, registration.value, login.value))
                           else Sent(500, ErrorBody(ConnectFailed))))))
    ensures reply.Sent? && (reply.status == 200 || reply.status == 500)
  {
    var userId, broker, userSecret := Get(body, UserId), Get(body, Broker), Get(body, UserSecret);
    calls := [];
    if !Truthy(userId) || !Truthy(broker) {
      // throw BadRequestError(...), caught below
      reply := Sent(500, ErrorBody(ConnectFailed));
      return;
    }
    if Truthy(userSecret) {
      calls := calls + [ListBrokerageAuthorizations(userId, userSecret)];
      if listing.Rejected? {
        reply := Sent(500, ErrorBody(ConnectFailed));
        return;
      }
      var search := FindExisting(listing.value, broker);
      if search.TypeError? {
        reply := Sent(500, ErrorBody(ConnectFailed));
        return;
      }
      if search.Found? && Truthy(listing.value[search.index].id) {
        var id := listing.value[search.index].id;
        calls := calls + [RefreshBrokerageAuthorization(id, userId, userSecret)];
        // a rejected refresh is caught and logged; either way the answer is the same
        reply := Sent(200, ExistingConnection(ExistingPrefix + broker.s, userSecret, id, broker));
        return;
      } else {
        calls := calls + [LoginSnapTradeUser(userId, userSecret, broker, true)];
        if login.Rejected? {
          reply := Sent(500, ErrorBody(LoginFailed));
          return;
        }
        reply := Sent(200, ConnectionInitiated(Initiated, userSecret, login.value));
        return;
      }
    }
    calls := calls + [RegisterSnapTradeUser(userId)];
    if registration.Rejected? {
      reply := Sent(500, ErrorBody(ConnectFailed));
      return;
    }
    userSecret := registration.value;
    calls := calls + [LoginSnapTradeUser(userId, userSecret, broker, true)];
    if login.Rejected? {
      reply := Sent(500, ErrorBody(ConnectFailed));
      return;
    }
    reply := Sent(200, ConnectionInitiated(Initiated, userSecret, login.value));
  }

  // ---------------------------------------------------------------------------
  // checkBrokerConnection

  /** `conn.brokerage && conn.brokerage.id === brokerId` */
  predicate ForBrokerage(a: Authorization, brokerId: JsVal) {
    a.brokerage.Some? && a.brokerage.value.id == brokerId
  }

  /** The `some` in `checkBrokerConnection`: an enabled authorization for that brokerage exists. */
  function HasActiveConnection(list: seq<Authorization>, brokerId: JsVal): (r: bool)
    ensures r <==> exists i | 0 <= i < |list| :: ForBrokerage(list[i], brokerId) && !Truthy(list[i].disabled)
  {
    if |list| == 0 then false
    else if ForBrokerage(list[0], brokerId) && !Truthy(list[0].disabled) then true
    else
      var rest := HasActiveConnection(list[1..], brokerId);
      assert forall i | 1 <= i < |list| :: list[i] == list[1..][i - 1];
      assert rest ==> exists i | 0 <= i < |list| :: ForBrokerage(list[i], brokerId) && !Truthy(list[i].disabled)
        by {
          if rest {
            var k :| 0 <= k < |list[1..]| && ForBrokerage(list[1..][k], brokerId) && !Truthy(list[1..][k].disabled);
            assert list[k + 1] == list[1..][k];
          }
        }
      rest
  }

  /** The `filter` in `checkBrokerConnection`: the authorizations for that brokerage, in listing
      order, disabled ones included. */
  function ConnectionsFor(list: seq<Authorization>, brokerId: JsVal): (r: seq<Authorization>)
    ensures |r| <= |list|
    ensures forall a :: a in r <==> a in list && ForBrokerage(a, brokerId)
  {
    if |list| == 0 then []
    else
      (if ForBrokerage(list[0], brokerId) then [list[0]] else [])
      + ConnectionsFor(list[1..], brokerId)
  }

  /** The filter keeps order: filtering a concatenation filters each part. */
  lemma {:induction false} ConnectionsForAppend(xs: seq<Authorization>, ys: seq<Authorization>, brokerId: JsVal)
    ensures ConnectionsFor(xs + ys, brokerId) == ConnectionsFor(xs, brokerId) + ConnectionsFor(ys, brokerId)
  {
    if |xs| == 0 {
      assert xs + ys == ys;
    } else {
      assert (xs + ys)[1..] == xs[1..] + ys;
      ConnectionsForAppend(xs[1..], ys, brokerId);
    }
  }

  /** An active connection is always among the reported connections. */
  lemma ActiveConnectionIsListed(list: seq<Authorization>, brokerId: JsVal)
    requires HasActiveConnection(list, brokerId)
    ensures |ConnectionsFor(list, brokerId)| > 0
    ensures exists a | a in ConnectionsFor(list, brokerId) :: !Truthy(a.disabled)
  {
    var i :| 0 <= i < |list| && ForBrokerage(list[i], brokerId) && !Truthy(list[i].disabled);
    assert list[i] in ConnectionsFor(list, brokerId);
  }

  /** The required fields of `checkBrokerConnection` are all truthy. */
  predicate CheckGuard(body: JsObject) {
    HasTruthy(body, UserId) && HasTruthy(body, UserSecret) && HasTruthy(body, BrokerId)
  }

  /** `checkBrokerConnection(req, res)`. */
  method CheckBrokerConnection(body: JsObject, listing: Outcome<seq<Authorization>>)
    returns (calls: seq<Call>, reply: Reply)
    ensures !CheckGuard(body)
      ==> calls == [] && reply == Sent(500, ErrorBody(CheckFailed))
    ensures CheckGuard(body)
      ==> (calls == [ListBrokerageAuthorizations(Get(body, UserId), Get(body, UserSecret))]
        && reply == (if listing.Rejected? then Sent(500, ErrorBody(CheckFailed))
                     else Sent(200, ConnectionCheck(HasActiveConnection(listing.value, Get(body, BrokerId)),
                                                    ConnectionsFor(listing.value, Get(body, BrokerId))))))
  {
    var userId, userSecret, brokerId := Get(body, UserId), Get(body, UserSecret), Get(body, BrokerId);
    calls := [];
    if !Truthy(userId) || !Truthy(userSecret) || !Truthy(brokerId) {
      reply := Sent(500, ErrorBody(CheckFailed));
      return;
    }
    calls := calls + [ListBrokerageAuthorizations(userId, userSecret)];
    if listing.Rejected? {
      reply := Sent(500, ErrorBody(CheckFailed));
      return;
    }
    var hasConnection := HasActiveConnection(listing.value, brokerId);
    var filtered := ConnectionsFor(listing.value, brokerId);
    reply := Sent(200, ConnectionCheck(hasConnection, filtered));
  }

  // ---------------------------------------------------------------------------
  // getAllConnections

  /** `!conn.disabled && conn.id`: the entries a refresh is attempted for. */
  predicate RefreshEligible(a: Authorization) {
    !Truthy(a.disabled) && Truthy(a.id)
  }

  /** The object the `map` callback returns for one authorization: id and
      disabled flag as listed; name and logo through `conn.brokerage?.`, so
      undefined when there is no brokerage. */
  function Summary(a: Authorization): (r: ConnectionSummary)
    ensures r.id == a.id && r.disabled == a.disabled
    ensures a.brokerage.Some? ==> r.brokerName == a.brokerage.value.name && r.logoUrl == a.brokerage.value.logoUrl
    ensures a.brokerage.None? ==> r.brokerName == Undefined && r.logoUrl == Undefined
  {
    ConnectionSummary(
      a.id,
      if a.brokerage.Some? then a.brokerage.value.name else Undefined,
      if a.brokerage.Some? then a.brokerage.value.logoUrl else Undefined,
      a.disabled)
  }

  /** The refresh calls of a sequential pass over the listing, in order. */
  function RefreshCalls(list: seq<Authorization>, userId: JsVal, userSecret: JsVal): (r: seq<Call>)
    // at most one refresh per listed entry, and none for an ineligible last entry
    ensures |r| <= |list|
    ensures |list| > 0 && !RefreshEligible(list[|list| - 1]) ==> r == RefreshCalls(list[..|list| - 1], userId, userSecret)
  {
    if |list| == 0 then []
    else
      var last := list[|list| - 1];
      RefreshCalls(list[..|list| - 1], userId, userSecret)
      + (if RefreshEligible(last) then [RefreshBrokerageAuthorization(last.id, userId, userSecret)] else [])
  }

  /** A refresh is attempted for an authorization id exactly when some
      eligible entry carries it, and no other kind of call is made. */
  lemma {:induction false} RefreshCallsExactly(list: seq<Authorization>, userId: JsVal, userSecret: JsVal)
    ensures forall c | c in RefreshCalls(list, userId, userSecret) ::
      && c.RefreshBrokerageAuthorization? && c.userId == userId && c.userSecret == userSecret
      && exists i | 0 <= i < |list| :: RefreshEligible(list[i]) && list[i].id == c.authorizationId
    ensures forall i | 0 <= i < |list| && RefreshEligible(list[i]) ::
      RefreshBrokerageAuthorization(list[i].id, userId, userSecret) in RefreshCalls(list, userId, userSecret)
  {
    if |list| > 0 {
      var init := list[..|list| - 1];
      RefreshCallsExactly(init, userId, userSecret);
      forall c | c in RefreshCalls(init, userId, userSecret)
        ensures exists i | 0 <= i < |list| :: RefreshEligible(list[i]) && list[i].id == c.authorizationId
      {
        var i :| 0 <= i < |init| && RefreshEligible(init[i]) && init[i].id == c.authorizationId;
        assert list[i] == init[i];
      }
      forall i | 0 <= i < |init| && RefreshEligible(list[i])
        ensures RefreshBrokerageAuthorization(list[i].id, userId, userSecret) in RefreshCalls(list, userId, userSecret)
      {
        assert init[i] == list[i];
      }
    }
  }

  /** Refreshing is in listing order: the refreshes of a concatenation are
      those of each part, one after the other. */
  lemma {:induction false} RefreshCallsAppend(xs: seq<Authorization>, ys: seq<Authorization>, userId: JsVal, userSecret: JsVal)
    ensures RefreshCalls(xs + ys, userId, userSecret) == RefreshCalls(xs, userId, userSecret) + RefreshCalls(ys, userId, userSecret)
  {
    if |ys| == 0 {
      assert xs + ys == xs;
    } else {
      var ysInit := ys[..|ys| - 1];
      assert (xs + ys)[..|xs + ys| - 1] == xs + ysInit;
      RefreshCallsAppend(xs, ysInit, userId, userSecret);
    }
  }

  /** The required fields of `getAllConnections` are all truthy. */
  predicate ListingGuard(body: JsObject) {
    HasTruthy(body, UserId) && HasTruthy(body, UserSecret)
  }

  /** `getAllConnections(req, res)`, with `Promise.all` taken as a sequential
      pass. The refresh outcomes, one per entry, are awaited and swallowed. */
  method GetAllConnections(body: JsObject, listing: Outcome<seq<Authorization>>, refreshes: seq<Outcome<JsVal>>)
    returns (calls: seq<Call>, reply: Reply)
    ensures !ListingGuard(body)
      ==> calls == [] && reply == Sent(500, ErrorBody(ListingFailed))
    ensures ListingGuard(body) && listing.Rejected?
      ==> (calls == [ListBrokerageAuthorizations(Get(body, UserId), Get(body, UserSecret))]
        && reply == Sent(500, ErrorBody(ListingFailed)))
    ensures ListingGuard(body) && listing.Resolved?
      ==> (calls == [ListBrokerageAuthorizations(Get(body, UserId), Get(body, UserSecret))]
                   + RefreshCalls(listing.value, Get(body, UserId), Get(body, UserSecret))
        && reply.Sent? && reply.status == 200 && reply.payload.ConnectionListing?
        && |reply.payload.summaries| == |listing.value|
        && forall i | 0 <= i < |listing.value| :: reply.payload.summaries[i] == Summary(listing.value[i]))
  {
    var userId, userSecret := Get(body, UserId), Get(body, UserSecret);
    calls := [];
    if !Truthy(userId) || !Truthy(userSecret) {
      reply := Sent(500, ErrorBody(ListingFailed));
      return;
    }
    calls := calls + [ListBrokerageAuthorizations(userId, userSecret)];
    if listing.Rejected? {
      reply := Sent(500, ErrorBody(ListingFailed));
      return;
    }
    var list := listing.value;
    var refreshed: seq<ConnectionSummary> := [];
    for i := 0 to |list|
      invariant |refreshed| == i
      invariant forall j | 0 <= j < i :: refreshed[j] == Summary(list[j])
      invariant calls == [ListBrokerageAuthorizations(userId, userSecret)] + RefreshCalls(list[..i], userId, userSecret)
    {
      var conn := list[i];
      assert list[..i + 1][..i] == list[..i];
      if !Truthy(conn.disabled) && Truthy(conn.id) {
        calls := calls + [RefreshBrokerageAuthorization(conn.id, userId, userSecret)];
        // refreshes[i] rejected: caught and logged, the entry is kept as it is
      }
      refreshed := refreshed + [Summary(conn)];
    }
    assert list[..|list|] == list;
    reply := Sent(200, ConnectionListing(refreshed));
  }
}
