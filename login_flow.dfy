/**
 * How the pieces meet at sign-in: the sign-in screen writes the account, the session
 * manager logs in with it and writes the resulting status back, and the screen shows
 * what that status means.
 */
module LoginFlow {
  import opened Wrappers
  import opened DataModel
  import opened XmppSession
  import opened AuthFeature

  /**
   * The screen state a login ending in `result` leads to; none when a setup step throws,
   * since then no status is written.
   */
  function OutcomeUiState(result: LoginResult): Option<AuthUiState>
  {
    match result
    case LoginSucceeded(_) => Some(AuthUiState.Success)
    case LoginFailed(Some(EndpointConnectionException)) => Some(Error(ServerNotAvailableMessage))
    case LoginFailed(_) => Some(Error(NotAuthorizedMessage))
    case SetupFailed(_) => None
  }

  /**
   * After `login` on the screen (state Loading) and the session's login with that account,
   * the screen shows Success when connect+login succeeded, "Server not available" when the
   * endpoint could not be reached, and "You are not authorized" on any other failure.
   * When a setup step throws, the screen sees the account stored before the login, so the
   * account the screen itself wrote, still Unauthenticated, leaves it in Loading.
   */
  lemma LoginShowsOutcome(s: Session, account: Account, result: LoginResult)
    ensures !result.SetupFailed? ==>
      && OutcomeUiState(result).Some?
      && StatusChangeUiState(Loading, LoggedIn(s, account, result).storedAccount) == OutcomeUiState(result).value
      && OutcomeUiState(result).value != Loading
    ensures result.SetupFailed? ==>
      && OutcomeUiState(result).None?
      && StatusChangeUiState(Loading, LoggedIn(s, account, result).storedAccount) == StatusChangeUiState(Loading, s.storedAccount)
    ensures result.SetupFailed? && s.storedAccount == Some(account) && account.status == Unauthenticated ==>
      StatusChangeUiState(Loading, LoggedIn(s, account, result).storedAccount) == Loading
  {
  }

  /**
   * The next start-up check finds a user available exactly when the last login succeeded;
   * after a setup step throws, it finds what it would have found before the login.
   */
  lemma NextStartupAfterLogin(s: Session, account: Account, result: LoginResult)
    ensures !result.SetupFailed? ==>
      (StartupUiState(LoggedIn(s, account, result).storedAccount) == UserAvailable <==> result.LoginSucceeded?)
    ensures result.SetupFailed? ==>
      StartupUiState(LoggedIn(s, account, result).storedAccount) == StartupUiState(s.storedAccount)
  {
  }
}
