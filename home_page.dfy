/** The client dashboard (`HomePage`): its React state, the browser's
    `localStorage`, and the handlers that update them. Each HTTP request the
    page sends is returned in a trace; its answer is supplied from outside. */
module HomePage {
  import opened JsValues
  import opened JsStrings

  /** One entry of the connection list the server returns. */
  datatype Connection = Connection(id: string, brokerName: string, logoUrl: Option<string>, disabled: bool)

  /** What a `catch (error: unknown)` receives. A primitive (also null and
      functions) is not an object; an object is seen through the two reads
      `getErrorMessage` makes: `responseError` is `e.response?.data?.error`
      (undefined when any link of the chain is missing) and `message` is
      `e.message` (undefined when absent). */
  datatype Caught = NotAnObject | ErrorObject(responseError: JsVal, message: JsVal)

  const UnknownError := "Unknown error occurred"

  /** `getErrorMessage(e)`: the server's error text first, then the error's
      own message when it is a string, then a fixed text. */
  function GetErrorMessage(e: Caught): (m: JsVal)
    ensures e.ErrorObject? && Truthy(e.responseError) ==> m == e.responseError
    ensures e.ErrorObject? && !Truthy(e.responseError) && e.message.Str? ==> m == e.message
    ensures e.NotAnObject? || (!Truthy(e.responseError) && !e.message.Str?) ==> m == Str(UnknownError)
    // the text shown is a string unless the server sent a non-string error
    ensures m.Str? || (e.ErrorObject? && m == e.responseError && !e.responseError.Str?)
  {
    if e.ErrorObject? && Truthy(e.responseError) then e.responseError
    else if e.ErrorObject? && e.message.Str? then e.message
    else Str(UnknownError)
  }

  /** `!s.trim()`: the string is empty once trimmed. */
  predicate IsBlank(s: string) {
    Trim(s) == []
  }

  /** The `localStorage` keys. */
  const UserIdKey := "snaptrade_userId"
  const UserSecretKey := "snaptrade_userSecret"

  /** `localStorage.getItem(key)` is truthy: present and not empty. */
  predicate Stored(storage: map<string, string>, key: string) {
    key in storage && storage[key] != ""
  }

  /** The credentials the mount-time load adopts from `storage`, if any. */
  function StoredCredentials(storage: map<string, string>): (r: Option<(string, string)>)
    ensures r.Some? <==> Stored(storage, UserIdKey) && Stored(storage, UserSecretKey)
    ensures r.Some? ==> r.value == (storage[UserIdKey], storage[UserSecretKey])
  {
    if Stored(storage, UserIdKey) && Stored(storage, UserSecretKey) then
      Some((storage[UserIdKey], storage[UserSecretKey]))
    else
      None
  }

  /** `storage` after a successful credential submit. */
  function Submitted(storage: map<string, string>, userId: string, userSecret: string): map<string, string> {
    storage[UserIdKey := Trim(userId)][UserSecretKey := Trim(userSecret)]
  }

  /** A submit that passes validation is picked up by the next mount-time
      load, trimmed. */
  lemma SubmittedCredentialsReload(storage: map<string, string>, userId: string, userSecret: string)
    requires Trim(userId) != [] && Trim(userSecret) != []
    ensures StoredCredentials(Submitted(storage, userId, userSecret)) == Some((Trim(userId), Trim(userSecret)))
  {
  }

  /** The secret after a connect reply returning `returned`: replaced only by
      a truthy secret that differs from the current one. */
  function RotatedSecret(current: string, returned: Option<string>): (r: string)
    ensures r != current <==> returned.Some? && returned.value != "" && returned.value != current
    ensures r == current || Some(r) == returned
  {
    if returned.Some? && returned.value != "" && returned.value != current then returned.value else current
  }

  /** `newUserSecret || userSecret`, the secret the refetch after a connect uses. */
  function RefetchSecret(current: string, returned: Option<string>): (r: string)
    ensures returned.Some? && returned.value != "" ==> r == returned.value
    ensures returned.None? || returned.value == "" ==> r == current
  {
    if returned.Some? && returned.value != "" then returned.value else current
  }

  /** The refetch uses exactly the secret the rotation leaves in place. */
  lemma RefetchUsesRotatedSecret(current: string, returned: Option<string>)
    ensures RefetchSecret(current, returned) == RotatedSecret(current, returned)
  {
  }

  /** The request bodies the page posts. */
  datatype Request =
    | GetConnections(userId: string, userSecret: string)
    | ConnectBroker(userId: string, userSecret: string, broker: string)

  /** An axios post: answered with data, or rejected with what `catch` receives. */
  datatype Post<+T> = Answered(data: T) | Failed(error: Caught)

  /** The body of a `get-connections` answer; `connections` may be absent. */
  datatype ConnectionsReply = ConnectionsReply(connections: Option<seq<Connection>>)

  /** The body of a `connect-broker` answer. */
  datatype ConnectReply = ConnectReply(connectionStatus: Option<ConnectStatus>, userSecret: Option<string>)
  datatype ConnectStatus = ConnectStatus(redirectURI: Option<string>)

  const BrokerRequired := "User ID and Broker are required"
  const Redirecting := "Redirecting to broker authorization..."
  const ConnectInitiated := "Broker connection initiated successfully."
  const CredentialsRequired := "Please enter both User ID and User Secret"

  /** `data.connectionStatus?.redirectURI`, when it is truthy: the page
      redirects exactly when the answer carries a non-empty URI, and to it. */
  function RedirectOf(reply: ConnectReply): (r: Option<string>)
    ensures r.Some? <==> (
      && reply.connectionStatus.Some? && reply.connectionStatus.value.redirectURI.Some?
      && reply.connectionStatus.value.redirectURI.value != "")
    ensures r.Some? ==> r == reply.connectionStatus.value.redirectURI && r.value != ""
  {
    if reply.connectionStatus.Some? && reply.connectionStatus.value.redirectURI.Some?
       && reply.connectionStatus.value.redirectURI.value != ""
    then reply.connectionStatus.value.redirectURI
    else None
  }

  /** The dashboard's state. A handler reads the state as it was when it
      started (the values its closure captured); a React setter changes the
      field, not what the running handler already read. */
  class Dashboard {
    var userId: string
    var userSecret: string
    var brokerInput: string
    var connectLoading: bool
    var connectMessage: JsVal
    var connections: seq<Connection>
    var loadingConnections: bool
    var connectionsError: JsVal
    var credentialsSubmitted: bool
    /** The browser's `localStorage`, which outlives the page. */
    var storage: map<string, string>

    /** The initial `useState` values, over the storage the browser has. */
    constructor (storage: map<string, string>)
      ensures userId == "" && userSecret == "" && brokerInput == ""
      ensures !connectLoading && connectMessage == Str("")
      ensures connections == [] && !loadingConnections && connectionsError == Str("")
      ensures !credentialsSubmitted && this.storage == storage
    {
      userId, userSecret, brokerInput := "", "", "";
      connectLoading, connectMessage := false, Str("");
      connections, loadingConnections, connectionsError := [], false, Str("");
      credentialsSubmitted := false;
      this.storage := storage;
    }

    /** The mount-time effect: adopt the stored credentials only when both
        are present and non-empty. */
    method LoadStoredCredentials()
      modifies this`userId, this`userSecret, this`credentialsSubmitted
      ensures StoredCredentials(storage).Some? ==> (
        && (userId, userSecret) == StoredCredentials(storage).value
        && credentialsSubmitted)
      ensures StoredCredentials(storage).None? ==> (
        && userId == old(userId) && userSecret == old(userSecret)
        && credentialsSubmitted == old(credentialsSubmitted))
    {
      var storedUserId := if UserIdKey in storage then storage[UserIdKey] else "";
      var storedUserSecret := if UserSecretKey in storage then storage[UserSecretKey] else "";
      if storedUserId != "" && storedUserSecret != "" {
        userId := storedUserId;
        userSecret := storedUserSecret;
        credentialsSubmitted := true;
      }
    }

    /** `fetchConnections(uid, secret)`: one request; on an answer the list
        (or [] when absent) replaces the connections, on a failure the list is
        cleared and the error shown; the loading flag ends false. */
    method FetchConnections(uid: string, secret: string, answer: Post<ConnectionsReply>) returns (sent: Request)
      modifies this`connections, this`loadingConnections, this`connectionsError
      ensures sent == GetConnections(uid, secret)
      ensures answer.Answered? ==> connections == answer.data.connections.GetOr([]) && connectionsError == Str("")
      ensures answer.Failed? ==> connections == [] && connectionsError == GetErrorMessage(answer.error)
      ensures !loadingConnections
    {
      loadingConnections := true;
      connectionsError := Str("");
      sent := GetConnections(uid, secret);
      match answer {
        case Answered(data) =>
          connections := data.connections.GetOr([]);
          connectionsError := Str("");
        case Failed(error) =>
          connectionsError := GetErrorMessage(error);
          connections := [];
      }
      loadingConnections := false;
    }

    /** The effect that loads connections once credentials are submitted and
        both are non-empty; React runs it whenever one of them changes. */
    method SyncConnections(answer: Post<ConnectionsReply>) returns (sent: seq<Request>)
      modifies this`connections, this`loadingConnections, this`connectionsError
      ensures credentialsSubmitted && userId != "" && userSecret != "" <==> sent != []
      ensures sent != [] ==> sent == [GetConnections(userId, userSecret)]
      ensures sent == [] ==> (
        && connections == old(connections) && connectionsError == old(connectionsError)
        && loadingConnections == old(loadingConnections))
      ensures sent != [] && answer.Answered? ==> connections == answer.data.connections.GetOr([]) && connectionsError == Str("")
      ensures sent != [] && answer.Failed? ==> connections == [] && connectionsError == GetErrorMessage(answer.error)
      ensures sent != [] ==> !loadingConnections
    {
      sent := [];
      if credentialsSubmitted && userId != "" && userSecret != "" {
        var request := FetchConnections(userId, userSecret, answer);
        sent := [request];
      }
    }

    /** `handleConnectBroker`. `answer` is the connect-broker outcome and
        `refetch` the outcome of the connection refetch that follows a
        connect without redirect; the refetch is not awaited but touches
        only the connection fields, so it is applied here in full. The
        returned `redirect` is where the page navigates, if anywhere. */
    method HandleConnectBroker(answer: Post<ConnectReply>, refetch: Post<ConnectionsReply>)
      returns (sent: seq<Request>, redirect: Option<string>)
      modifies this`connectLoading, this`connectMessage, this`userSecret, this`storage,
        this`connections, this`loadingConnections, this`connectionsError
      // validation: nothing is sent and only the message changes
      ensures userId == "" || brokerInput == "" ==> (
        && sent == [] && redirect == None
        && connectMessage == Str(BrokerRequired)
        && userSecret == old(userSecret) && storage == old(storage)
        && connectLoading == old(connectLoading) && connections == old(connections)
        && connectionsError == old(connectionsError) && loadingConnections == old(loadingConnections))
      ensures userId != "" && brokerInput != "" ==> (
        && |sent| >= 1
        && sent[0] == ConnectBroker(userId, old(userSecret), ToUpperCase(brokerInput))
        && !connectLoading)
      // a failed connect shows the error and changes nothing else
      ensures userId != "" && brokerInput != "" && answer.Failed? ==> (
        && sent == [sent[0]] && redirect == None
        && connectMessage == GetErrorMessage(answer.error)
        && userSecret == old(userSecret) && storage == old(storage) && connections == old(connections)
        && connectionsError == old(connectionsError) && loadingConnections == old(loadingConnections))
      // an answered connect rotates the secret (state and storage) by the rule
      ensures userId != "" && brokerInput != "" && answer.Answered? ==> (
        && userSecret == RotatedSecret(old(userSecret), answer.data.userSecret)
        && storage == (if userSecret != old(userSecret) then old(storage)[UserSecretKey := userSecret] else old(storage))
        && redirect == RedirectOf(answer.data))
      ensures userId != "" && brokerInput != "" && answer.Answered? && redirect.Some? ==> (
        && sent == [sent[0]]
        && connectMessage == Str(Redirecting) && connections == old(connections)
        && connectionsError == old(connectionsError) && loadingConnections == old(loadingConnections))
      ensures userId != "" && brokerInput != "" && answer.Answered? && redirect.None? ==> (
        && sent == [sent[0], GetConnections(userId, RotatedSecret(old(userSecret), answer.data.userSecret))]
        && connectMessage == Str(ConnectInitiated)
        && (refetch.Answered? ==> connections == refetch.data.connections.GetOr([]) && connectionsError == Str(""))
        && (refetch.Failed? ==> connections == [] && connectionsError == GetErrorMessage(refetch.error))
        && !loadingConnections)
    {
      var uid, secret, broker := userId, userSecret, brokerInput;
      sent, redirect := [], None;
      if uid == "" || broker == "" {
        connectMessage := Str(BrokerRequired);
        return;
      }
      connectLoading := true;
      connectMessage := Str("");
      sent := [ConnectBroker(uid, secret, ToUpperCase(broker))];
      match answer {
        case Failed(error) =>
          connectMessage := GetErrorMessage(error);
        case Answered(data) =>
          var newUserSecret := data.userSecret;
          if newUserSecret.Some? && newUserSecret.value != "" && newUserSecret.value != secret {
            userSecret := newUserSecret.value;
            storage := storage[UserSecretKey := newUserSecret.value];
          }
          redirect := RedirectOf(data);
          if redirect.Some? {
            connectMessage := Str(Redirecting);
          } else {
            connectMessage := Str(ConnectInitiated);
            RefetchUsesRotatedSecret(secret, newUserSecret);
            var request := FetchConnections(uid, RefetchSecret(secret, newUserSecret), refetch);
            sent := sent + [request];
          }
      }
      connectLoading := false;
    }

    /** `handleCredentialsSubmit`: both fields must be non-blank; the trimmed
        values are stored, while the state keeps the fields as typed. The
        result is the alert shown, if any. */
    method HandleCredentialsSubmit() returns (alert: Option<string>)
      modifies this`storage, this`credentialsSubmitted
      ensures IsBlank(userId) || IsBlank(userSecret) <==> alert.Some?
      ensures alert.Some? ==> (
        && alert.value == CredentialsRequired
        && storage == old(storage) && credentialsSubmitted == old(credentialsSubmitted))
      ensures alert.None? ==> (
        && storage == Submitted(old(storage), userId, userSecret)
        && credentialsSubmitted)
    {
      if IsBlank(userId) || IsBlank(userSecret) {
        alert := Some(CredentialsRequired);
        return;
      }
      storage := Submitted(storage, userId, userSecret);
      credentialsSubmitted := true;
      alert := None;
    }
  }
}
