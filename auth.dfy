/**
 * The sign-in screen's state machine (AuthViewModel): the persisted account's status
 * mapped to a UI state.
 */
module AuthFeature {
  import opened Wrappers
  import opened DataModel

  datatype AuthUiState = Checking | UserAvailable | AuthRequired | Loading | Success | Error(message: string)

  const ServerNotAvailableMessage: string := "Server not available"
  const NotAuthorizedMessage: string := "You are not authorized"

  /** `checkIfUserAlreadyLoggedIn`: a user is available exactly when the stored account is Online. */
  function StartupUiState(account: Option<Account>): (r: AuthUiState)
    ensures r == UserAvailable <==> account.Some? && account.value.status == Online
    ensures r == AuthRequired <==> !(account.Some? && account.value.status == Online)
  {
    if account.Some? && account.value.status == Online then UserAvailable else AuthRequired
  }

  /** The UI state an account status change leads to, if any. */
  function StatusUiState(status: AccountStatus): Option<AuthUiState>
  {
    match status
    case Online => Some(AuthUiState.Success)
    case ServerNotFound => Some(Error(ServerNotAvailableMessage))
    case Unauthorized => Some(Error(NotAuthorizedMessage))
    case Unauthenticated => None
  }

  /** One value collected by `checkForAccountStatusChanges`, applied to the current UI state. */
  function StatusChangeUiState(current: AuthUiState, account: Option<Account>): (r: AuthUiState)
    ensures r == current || r == AuthUiState.Success || r.Error?
    ensures r.Error? && r != current ==> r.message in {ServerNotAvailableMessage, NotAuthorizedMessage}
  {
    match account
    case Some(a) => StatusUiState(a.status).GetOr(current)
    case None => current
  }

  /**
   * The mapping of a status change: Online gives Success, ServerNotFound and Unauthorized
   * give their error messages, and any other status, or no account, leaves the state as is.
   */
  lemma StatusChangeCases(current: AuthUiState, account: Option<Account>)
    ensures account.Some? && account.value.status == Online ==> StatusChangeUiState(current, account) == AuthUiState.Success
    ensures account.Some? && account.value.status == ServerNotFound ==>
      StatusChangeUiState(current, account) == Error("Server not available")
    ensures account.Some? && account.value.status == Unauthorized ==>
      StatusChangeUiState(current, account) == Error("You are not authorized")
    ensures account.None? || account.value.status == Unauthenticated ==>
      StatusChangeUiState(current, account) == current
  {
  }

  /**
   * Seeing the same account twice changes nothing more than seeing it once, so a second
   * `login`, which starts a second collector, shows the same states as the first.
   */
  lemma StatusChangeIdempotent(current: AuthUiState, account: Option<Account>)
    ensures StatusChangeUiState(StatusChangeUiState(current, account), account) == StatusChangeUiState(current, account)
  {
  }

  /**
   * AuthViewModel. `storedAccount` is the account held by the preferences store as far as
   * this view model reads and writes it; `collecting` says whether account changes are observed.
   */
  class AuthViewModel {
    var uiState: AuthUiState
    var storedAccount: Option<Account>
    var collecting: bool

    /** The view model before `init`'s check has run. */
    constructor (storedAccount: Option<Account>)
      ensures uiState == Checking && this.storedAccount == storedAccount && !collecting
    {
      uiState := Checking;
      this.storedAccount := storedAccount;
      collecting := false;
    }

    method CheckIfUserAlreadyLoggedIn()
      modifies this
      ensures uiState == StartupUiState(storedAccount)
      ensures storedAccount == old(storedAccount) && collecting == old(collecting)
    {
      var account := storedAccount;
      if account.Some? && account.value.status == Online {
        uiState := UserAvailable;
      } else {
        uiState := AuthRequired;
      }
    }

    /** `login(jid, password)`; `account` is what `Account.create(jid, password)` returns. */
    method Login(account: Account)
      modifies this
      ensures uiState == Loading
      ensures storedAccount == Some(account)
      ensures collecting
    {
      uiState := Loading;
      storedAccount := Some(account);
      collecting := true;
    }

    /** The store now holds `account`; once login has started collecting, the UI follows it. */
    method AccountChanged(account: Option<Account>)
      modifies this
      ensures storedAccount == account
      ensures collecting == old(collecting)
      ensures uiState == if collecting then StatusChangeUiState(old(uiState), account) else old(uiState)
    {
      storedAccount := account;
      if collecting {
        uiState := StatusChangeUiState(uiState, account);
      }
    }
  }
}
