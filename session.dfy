/**
 * Session bookkeeping of the XMPP manager (XmppManagerImpl): the optional connection
 * handle, the account and connection status written to the preferences store, and the
 * calls made on the transport library, recorded in order.
 *
 * The outcome of connect+login is an input; so is the account found in the store.
 */
module XmppSession {
  import opened Wrappers
  import opened DataModel

  /** What a failed connect+login can throw. */
  datatype Throwable = EndpointConnectionException | OtherThrowable(name: string)

  /**
   * A step of `Account.login` that runs before `connectAndLogin()` and outside its
   * `runCatching`: building the configuration or the connection object, configuring the
   * reconnection manager, adding the connection listener.
   */
  datatype SetupStep = BuildingConnection | ConfiguringReconnection | AddingListener

  /**
   * How a login attempt ends: `connectAndLogin()` succeeds or fails (its exception caught
   * by `runCatching`), or a setup step throws, and the exception escapes `login`.
   */
  datatype LoginResult =
    | LoginSucceeded(isAuthenticated: bool)
    | LoginFailed(exception: Option<Throwable>)
    | SetupFailed(step: SetupStep)

  /** Connection parameters built from the account. */
  datatype Configuration = Configuration(username: string, password: string, xmppDomain: string)

  /** A connection object; `id` tells the connections created by successive logins apart. */
  datatype Connection = Connection(id: nat, configuration: Configuration, isAuthenticated: bool)

  /** Calls on the transport library, each naming the connection it is made on. */
  datatype SmackCall =
    | CreateConnection(id: nat, configuration: Configuration)
    | EnableAutomaticReconnection(id: nat)
    | AddConnectionListener(id: nat)
    | ConnectAndLogin(id: nat)
    | RemoveConnectionListener(id: nat)
  {
    function ConnectionId(): nat
    {
      match this
      case CreateConnection(id, _) => id
      case EnableAutomaticReconnection(id) => id
      case AddConnectionListener(id) => id
      case ConnectAndLogin(id) => id
      case RemoveConnectionListener(id) => id
    }
  }

  datatype ConnectionError = NoSuchElementException(message: string)

  const NotEstablishedMessage: string := "Connection is not established."

  /**
   * Everything the manager reads and writes: its fields `xmppConnection` and `account`,
   * the account and connection status held by the preferences store, the library calls
   * made so far, and how many connections have been created.
   */
  datatype Session = Session(
    xmppConnection: Option<Connection>,
    account: Option<Account>,
    storedAccount: Option<Account>,
    connectionStatus: ConnectionStatus,
    calls: seq<SmackCall>,
    connectionsCreated: nat)

  /** `getConfiguration`: user name and password from the account, domain from its domain part. */
  function ConfigurationFor(account: Account): Configuration
  {
    Configuration(account.localPart, account.password, account.domainPart)
  }

  /**
   * `connectionFailureHandler`: an unreachable endpoint means the server was not found,
   * anything else (including no throwable at all) is taken as an authorization failure.
   */
  function FailureStatus(throwable: Option<Throwable>): (status: AccountStatus)
    ensures status == ServerNotFound <==> throwable == Some(EndpointConnectionException)
    ensures status == Unauthorized <==> throwable != Some(EndpointConnectionException)
  {
    match throwable
    case Some(EndpointConnectionException) => ServerNotFound
    case _ => Unauthorized
  }

  /**
   * The library calls `Account.login` makes on connection `id`: all four when setup
   * completes, and otherwise those made before the step that threw.
   */
  function LoginCallsFor(id: nat, configuration: Configuration, result: LoginResult): seq<SmackCall>
  {
    var all := [CreateConnection(id, configuration), EnableAutomaticReconnection(id),
                AddConnectionListener(id), ConnectAndLogin(id)];
    if result.SetupFailed? then all[..SetupStepsCompleted(result)] else all
  }

  /** How many of the three setup steps complete before connect+login is reached. */
  function SetupStepsCompleted(result: LoginResult): (n: nat)
    ensures n <= 3
    ensures n == 3 <==> !result.SetupFailed?
  {
    match result
    case SetupFailed(BuildingConnection) => 0
    case SetupFailed(ConfiguringReconnection) => 1
    case SetupFailed(AddingListener) => 2
    case _ => 3
  }

  /**
   * `login(account)` with the attempt ending in `result`. A setup step that throws leaves
   * the handle and both stores as they were; only `account` and the calls made so far change.
   */
  function LoggedIn(s: Session, account: Account, result: LoginResult): Session
  {
    var id := s.connectionsCreated;
    var configuration := ConfigurationFor(account);
    var created := if SetupStepsCompleted(result) == 0 then id else id + 1;
    var attempted := s.(account := Some(account), calls := s.calls + LoginCallsFor(id, configuration, result),
                        connectionsCreated := created);
    if result.LoginSucceeded? then
      attempted.(
        xmppConnection := Some(Connection(id, configuration, result.isAuthenticated)),
        storedAccount := Some(account.(status := Online)),
        connectionStatus := ConnectionStatus(true, result.isAuthenticated))
    else if result.LoginFailed? then
      attempted.(
        xmppConnection := None,
        storedAccount := Some(account.(status := FailureStatus(result.exception))))
    else
      attempted
  }

  /** `initialize()`; `result` is what connect+login would give if a login is attempted. */
  function Initialized(s: Session, result: LoginResult): Session
  {
    if s.xmppConnection.Some? then s
    else
      var reset := s.(connectionStatus := NeutralConnectionStatus);
      match reset.storedAccount
      case Some(account) => LoggedIn(reset, account, result)
      case None => reset
  }

  /** `onCleared()`. */
  function Cleared(s: Session): Session
  {
    match s.xmppConnection
    case Some(c) => s.(calls := s.calls + [RemoveConnectionListener(c.id)])
    case None => s
  }

  /** What `getConnection()` gives on a session. */
  function ConnectionResult(s: Session): (r: Result<Connection, ConnectionError>)
    ensures r.Success? <==> s.xmppConnection.Some?
    ensures r.Success? ==> r.value == s.xmppConnection.value
    ensures r.Failure? ==> r.error == NoSuchElementException(NotEstablishedMessage)
  {
    match s.xmppConnection
    case Some(c) => Success(c)
    case None => Failure(NoSuchElementException(NotEstablishedMessage))
  }

  /** Automatic reconnection is enabled on, and the listener added to, a connection before it connects. */
  ghost predicate ConfiguredBeforeConnect(calls: seq<SmackCall>)
  {
    forall k :: 0 <= k < |calls| && calls[k].ConnectAndLogin? ==>
      && (exists i :: 0 <= i < k && calls[i] == EnableAutomaticReconnection(calls[k].id))
      && (exists j :: 0 <= j < k && calls[j] == AddConnectionListener(calls[k].id))
  }

  /** Every call and the live handle name a connection that has been created. */
  ghost predicate IdsCreated(s: Session)
  {
    && (forall k :: 0 <= k < |s.calls| ==> s.calls[k].ConnectionId() < s.connectionsCreated)
    && (s.xmppConnection.Some? ==> s.xmppConnection.value.id < s.connectionsCreated)
  }

  ghost predicate SessionInvariant(s: Session)
  {
    ConfiguredBeforeConnect(s.calls) && IdsCreated(s)
  }

  /** The transport operations a client of the manager can perform. */
  datatype SessionOp = Initialize(result: LoginResult) | Login(account: Account, result: LoginResult) | Clear

  function Apply(s: Session, op: SessionOp): Session
  {
    match op
    case Initialize(result) => Initialized(s, result)
    case Login(account, result) => LoggedIn(s, account, result)
    case Clear => Cleared(s)
  }

  function ApplyAll(s: Session, ops: seq<SessionOp>): Session
    decreases |ops|
  {
    if ops == [] then s else ApplyAll(Apply(s, ops[0]), ops[1..])
  }

  /** No operation in `ops` has a login that succeeds. */
  ghost predicate NoSuccessfulLogin(ops: seq<SessionOp>)
  {
    forall k :: 0 <= k < |ops| ==> match ops[k]
      case Initialize(result) => !result.LoginSucceeded?
      case Login(_, result) => !result.LoginSucceeded?
      case Clear => true
  }

  // ---------------------------------------------------------------------------
  // Properties
  // ---------------------------------------------------------------------------

  /** `initialize` leaves everything as it is while a connection handle exists. */
  lemma InitializeWithConnectionIsNoOp(s: Session, result: LoginResult)
    requires s.xmppConnection.Some?
    ensures Initialized(s, result) == s
  {
  }

  /**
   * Without a handle, `initialize` resets the connection status and logs in with the
   * stored account if there is one; with none stored nothing else changes.
   */
  lemma InitializeWithoutConnection(s: Session, result: LoginResult)
    requires s.xmppConnection.None?
    ensures s.storedAccount.None? ==> Initialized(s, result) == s.(connectionStatus := NeutralConnectionStatus)
    ensures s.storedAccount.Some? ==>
      Initialized(s, result) == LoggedIn(s.(connectionStatus := NeutralConnectionStatus), s.storedAccount.value, result)
    ensures s.storedAccount.None? || !result.LoginSucceeded? ==>
      Initialized(s, result).connectionStatus == NeutralConnectionStatus
  {
  }

  /**
   * After `login` the handle is a newly created connection on success and absent on
   * failure, whatever handle there was before; the stored account carries the outcome;
   * the connection status is written on success only. When a setup step throws, the
   * handle and both stores are left as they were.
   */
  lemma LoginOutcome(s: Session, account: Account, result: LoginResult)
    requires SessionInvariant(s)
    ensures var r := LoggedIn(s, account, result);
      && r.account == Some(account)
      && (!result.SetupFailed? ==> (result.LoginSucceeded? <==> r.xmppConnection.Some?))
      && (result.SetupFailed? ==>
            && r.xmppConnection == s.xmppConnection
            && r.storedAccount == s.storedAccount
            && r.connectionStatus == s.connectionStatus)
      && (result.LoginSucceeded? ==>
            && (forall k :: 0 <= k < |s.calls| ==> s.calls[k].ConnectionId() != r.xmppConnection.value.id)
            && (s.xmppConnection.Some? ==> r.xmppConnection.value.id != s.xmppConnection.value.id)
            && r.xmppConnection.value.configuration == ConfigurationFor(account)
            && r.storedAccount == Some(account.(status := Online))
            && r.connectionStatus == ConnectionStatus(true, result.isAuthenticated))
      && (result.LoginFailed? ==>
            && r.storedAccount == Some(account.(status := FailureStatus(result.exception)))
            && r.connectionStatus == s.connectionStatus)
  {
  }

  /**
   * A login that gets past setup makes exactly the four calls, in order; one whose setup
   * throws makes those before the throwing step, and never connects. No login removes a
   * listener.
   */
  lemma LoginCalls(s: Session, account: Account, result: LoginResult)
    ensures var r := LoggedIn(s, account, result);
      var id := s.connectionsCreated;
      var all := [CreateConnection(id, ConfigurationFor(account)), EnableAutomaticReconnection(id),
                  AddConnectionListener(id), ConnectAndLogin(id)];
      && (!result.SetupFailed? ==> r.calls == s.calls + all)
      && (result == SetupFailed(BuildingConnection) ==> r.calls == s.calls && r.connectionsCreated == id)
      && (result == SetupFailed(ConfiguringReconnection) ==> r.calls == s.calls + [all[0]])
      && (result == SetupFailed(AddingListener) ==> r.calls == s.calls + [all[0], all[1]])
  {
  }

  /**
   * The connection is configured from the account's credentials and domain alone: two
   * accounts that differ only in their status get the same configuration.
   */
  lemma ConfigurationFromCredentials(a: Account, b: Account)
    ensures ConfigurationFor(a).username == a.localPart
    ensures ConfigurationFor(a).password == a.password
    ensures ConfigurationFor(a).xmppDomain == a.domainPart
    ensures ConfigurationFor(a) == ConfigurationFor(b) <==>
      a.localPart == b.localPart && a.password == b.password && a.domainPart == b.domainPart
  {
  }

  /** `onCleared` removes the listener from the live connection, and does nothing without one. */
  lemma ClearedEffect(s: Session)
    ensures s.xmppConnection.None? ==> Cleared(s) == s
    ensures s.xmppConnection.Some? ==>
      Cleared(s) == s.(calls := s.calls + [RemoveConnectionListener(s.xmppConnection.value.id)])
  {
  }

  lemma LoginKeepsInvariant(s: Session, account: Account, result: LoginResult)
    requires SessionInvariant(s)
    ensures SessionInvariant(LoggedIn(s, account, result))
  {
    var r := LoggedIn(s, account, result);
    var n := |s.calls|;
    var id := s.connectionsCreated;
    if result.SetupFailed? {
      assert forall k :: n <= k < |r.calls| ==> !r.calls[k].ConnectAndLogin? && r.calls[k].ConnectionId() == id;
      forall k | 0 <= k < |r.calls| && r.calls[k].ConnectAndLogin?
        ensures exists i :: 0 <= i < k && r.calls[i] == EnableAutomaticReconnection(r.calls[k].id)
        ensures exists j :: 0 <= j < k && r.calls[j] == AddConnectionListener(r.calls[k].id)
      {
        assert k < n && r.calls[k] == s.calls[k];
        var i :| 0 <= i < k && s.calls[i] == EnableAutomaticReconnection(s.calls[k].id);
        var j :| 0 <= j < k && s.calls[j] == AddConnectionListener(s.calls[k].id);
        assert r.calls[i] == s.calls[i] && r.calls[j] == s.calls[j];
      }
      return;
    }
    assert r.calls[n + 1] == EnableAutomaticReconnection(id);
    assert r.calls[n + 2] == AddConnectionListener(id);
    forall k | 0 <= k < |r.calls| && r.calls[k].ConnectAndLogin?
      ensures exists i :: 0 <= i < k && r.calls[i] == EnableAutomaticReconnection(r.calls[k].id)
      ensures exists j :: 0 <= j < k && r.calls[j] == AddConnectionListener(r.calls[k].id)
    {
      if k < n {
        assert r.calls[k] == s.calls[k];
        var i :| 0 <= i < k && s.calls[i] == EnableAutomaticReconnection(s.calls[k].id);
        var j :| 0 <= j < k && s.calls[j] == AddConnectionListener(s.calls[k].id);
        assert r.calls[i] == s.calls[i] && r.calls[j] == s.calls[j];
      } else {
        assert k == n + 3;
      }
    }
  }

  lemma ClearedKeepsInvariant(s: Session)
    requires SessionInvariant(s)
    ensures SessionInvariant(Cleared(s))
  {
    var r := Cleared(s);
    if s.xmppConnection.Some? {
      var n := |s.calls|;
      forall k | 0 <= k < |r.calls| && r.calls[k].ConnectAndLogin?
        ensures exists i :: 0 <= i < k && r.calls[i] == EnableAutomaticReconnection(r.calls[k].id)
        ensures exists j :: 0 <= j < k && r.calls[j] == AddConnectionListener(r.calls[k].id)
      {
        assert k < n && r.calls[k] == s.calls[k];
        var i :| 0 <= i < k && s.calls[i] == EnableAutomaticReconnection(s.calls[k].id);
        var j :| 0 <= j < k && s.calls[j] == AddConnectionListener(s.calls[k].id);
        assert r.calls[i] == s.calls[i] && r.calls[j] == s.calls[j];
      }
    }
  }

  lemma ApplyKeepsInvariant(s: Session, op: SessionOp)
    requires SessionInvariant(s)
    ensures SessionInvariant(Apply(s, op))
  {
    match op
    case Initialize(result) =>
      if s.xmppConnection.None? && s.storedAccount.Some? {
        LoginKeepsInvariant(s.(connectionStatus := NeutralConnectionStatus), s.storedAccount.value, result);
      }
    case Login(account, result) => LoginKeepsInvariant(s, account, result);
    case Clear => ClearedKeepsInvariant(s);
  }

  /**
   * On every run of operations, each connection has automatic reconnection enabled and
   * its listener added before connect+login is attempted on it.
   */
  lemma {:induction false} ReconnectionConfiguredBeforeEveryConnect(s: Session, ops: seq<SessionOp>)
    requires SessionInvariant(s)
    ensures SessionInvariant(ApplyAll(s, ops))
    ensures ConfiguredBeforeConnect(ApplyAll(s, ops).calls)
    decreases |ops|
  {
    if ops != [] {
      ApplyKeepsInvariant(s, ops[0]);
      ReconnectionConfiguredBeforeEveryConnect(Apply(s, ops[0]), ops[1..]);
    }
  }

  /** Until some login succeeds, `getConnection` fails with NoSuchElementException. */
  lemma {:induction false} NoConnectionBeforeSuccessfulLogin(s: Session, ops: seq<SessionOp>)
    requires s.xmppConnection.None? && NoSuccessfulLogin(ops)
    ensures ConnectionResult(ApplyAll(s, ops)) == Failure(NoSuchElementException(NotEstablishedMessage))
    decreases |ops|
  {
    if ops != [] {
      assert NoSuccessfulLogin(ops[1..]) by {
        forall k | 0 <= k < |ops[1..]| ensures ops[1..][k] == ops[k + 1] { }
      }
      assert ops[0] == ops[0 + 0];
      NoConnectionBeforeSuccessfulLogin(Apply(s, ops[0]), ops[1..]);
    }
  }

  // ---------------------------------------------------------------------------
  // The manager
  // ---------------------------------------------------------------------------

  /**
   * XmppManagerImpl. `storedAccount` and `connectionStatus` stand for the preferences
   * store it writes to; `calls` records what it asks of the transport library.
   */
  class XmppManager {
    var xmppConnection: Option<Connection>
    var account: Option<Account>
    var storedAccount: Option<Account>
    var connectionStatus: ConnectionStatus
    var calls: seq<SmackCall>
    var connectionsCreated: nat

    function Snapshot(): Session
      reads this
    {
      Session(xmppConnection, account, storedAccount, connectionStatus, calls, connectionsCreated)
    }

    ghost predicate Valid()
      reads this
    {
      SessionInvariant(Snapshot())
    }

    /** A manager with no connection over a store holding `storedAccount` and `connectionStatus`. */
    constructor (storedAccount: Option<Account>, connectionStatus: ConnectionStatus)
      ensures Valid()
      ensures Snapshot() == Session(None, None, storedAccount, connectionStatus, [], 0)
    {
      xmppConnection := None;
      account := None;
      this.storedAccount := storedAccount;
      this.connectionStatus := connectionStatus;
      calls := [];
      connectionsCreated := 0;
    }

    method Initialize(result: LoginResult)
      requires Valid()
      modifies this
      ensures Valid()
      ensures Snapshot() == Initialized(old(Snapshot()), result)
    {
      if xmppConnection.None? {
        connectionStatus := NeutralConnectionStatus;
        var existedAccount := storedAccount;
        if existedAccount.Some? {
          Login(existedAccount.value, result);
        }
      }
    }

    method GetConnection() returns (r: Result<Connection, ConnectionError>)
      ensures r == ConnectionResult(Snapshot())
    {
      if xmppConnection.Some? {
        r := Success(xmppConnection.value);
      } else {
        r := Failure(NoSuchElementException(NotEstablishedMessage));
      }
    }

    /** `login(account)`; when a setup step throws, the handle is not assigned. */
    method Login(account: Account, result: LoginResult)
      requires Valid()
      modifies this
      ensures Valid()
      ensures Snapshot() == LoggedIn(old(Snapshot()), account, result)
    {
      this.account := Some(account);
      var connection, threw := AccountLogin(account, result);
      if !threw {
        xmppConnection := connection;
      }
      LoginKeepsInvariant(old(Snapshot()), account, result);
    }

    /**
     * The extension `Account.login`: build, configure, connect, then run a handler.
     * `threw` says that a setup step threw, so that nothing is returned.
     */
    method AccountLogin(account: Account, result: LoginResult) returns (connection: Option<Connection>, threw: bool)
      modifies this
      ensures threw <==> result.SetupFailed?
      ensures var id := old(connectionsCreated);
        && calls == old(calls) + LoginCallsFor(id, ConfigurationFor(account), result)
        && connectionsCreated == (if SetupStepsCompleted(result) == 0 then id else id + 1)
        && (result.LoginSucceeded? ==>
              && connection == Some(Connection(id, ConfigurationFor(account), result.isAuthenticated))
              && storedAccount == Some(account.(status := Online))
              && connectionStatus == ConnectionStatus(true, result.isAuthenticated))
        && (result.LoginFailed? ==>
              && connection == None
              && storedAccount == Some(account.(status := FailureStatus(result.exception)))
              && connectionStatus == old(connectionStatus))
        && (result.SetupFailed? ==> storedAccount == old(storedAccount) && connectionStatus == old(connectionStatus))
      ensures xmppConnection == old(xmppConnection) && this.account == old(this.account)
    {
      var configuration := ConfigurationFor(account);
      var id := connectionsCreated;
      var completed := SetupStepsCompleted(result);
      connection := None;
      threw := true;
      if completed == 0 {
        return;
      }
      connectionsCreated := connectionsCreated + 1;
      calls := calls + [CreateConnection(id, configuration)];
      if completed == 1 {
        return;
      }
      calls := calls + [EnableAutomaticReconnection(id)];
      if completed == 2 {
        return;
      }
      calls := calls + [AddConnectionListener(id)];
      threw := false;
      calls := calls + [ConnectAndLogin(id)];
      if result.LoginSucceeded? {
        var c := ConnectionSuccessHandler(account, Connection(id, configuration, result.isAuthenticated));
        connection := Some(c);
      } else {
        ConnectionFailureHandler(account, result.exception);
      }
    }

    method ConnectionSuccessHandler(account: Account, connection: Connection) returns (r: Connection)
      modifies this
      ensures r == connection
      ensures storedAccount == Some(account.(status := Online))
      ensures connectionStatus == ConnectionStatus(true, connection.isAuthenticated)
      ensures xmppConnection == old(xmppConnection) && this.account == old(this.account)
      ensures calls == old(calls) && connectionsCreated == old(connectionsCreated)
    {
      storedAccount := Some(account.(status := Online));
      connectionStatus := ConnectionStatus(true, connection.isAuthenticated);
      r := connection;
    }

    /** Writes the classified failure into the stored account; the connection status is left alone. */
    method ConnectionFailureHandler(account: Account, throwable: Option<Throwable>)
      modifies this
      ensures storedAccount == Some(account.(status := FailureStatus(throwable)))
      ensures connectionStatus == old(connectionStatus)
      ensures xmppConnection == old(xmppConnection) && this.account == old(this.account)
      ensures calls == old(calls) && connectionsCreated == old(connectionsCreated)
    {
      storedAccount := Some(account.(status := FailureStatus(throwable)));
    }

    method OnCleared()
      requires Valid()
      modifies this
      ensures Valid()
      ensures Snapshot() == Cleared(old(Snapshot()))
    {
      if xmppConnection.Some? {
        calls := calls + [RemoveConnectionListener(xmppConnection.value.id)];
      }
      ClearedKeepsInvariant(old(Snapshot()));
    }
  }
}
