# Dialogue chat client: bookkeeping core in Dafny

This project models the parts of the "dialogue" XMPP chat client that hold a lot of bookkeeping. Once the transport library (Smack), the database (Room) and the coroutine machinery are replaced by inputs and recorded outputs, each part below runs as a sequence of steps.

- **ChatFeature** (`chat.dfy`) is the typing-indicator debouncer of `ChatViewModel` and `CurrentChatState`, using the chat states of XEP-0085 (Chat State Notifications, section 2).
  - Time is a millisecond counter.
  - Every "send Paused after 3000 ms" job a keystroke launches is kept with its status: scheduled with a deadline, cancelled, or completed.
  - The output is the sequence of `SendingChatState` values handed to the outbound repository.
  - Pure transition functions (`Opened`, `Typed`, `Sent`, `Elapsed`, `Run`) carry the properties.
  - The class `ChatViewModel` is proved to follow those functions.
- **XmppSession** (`session.dfy`) models `XmppManagerImpl`.
  - It holds the optional connection handle, the last account and the two values it writes to the preferences store.
  - It keeps a log of the calls it makes into the transport library.
  - The outcome of connect+login is an input.
  - The failure classification is a pure function.
- **AuthFeature** (`auth.dfy`) is the sign-in screen's state machine from `AuthViewModel`.
- **ConversationDao** (`conversation_dao.dfy`) gives the `conversations` table declared by `ConversationDao`, as a map keyed by peer JID.
- **MessageExchange** (`message_manager.dfy`) covers `MessageManagerImpl`:
  - the send loop, as an ordered log of sent stanzas that stops at the first send that throws;
  - the three lazily-initialized managers;
  - the four listener fields and the set of registered listeners;
  - the guarded teardown.
- **LoginFlow** (`login_flow.dfy`) joins the sign-in screen and the session manager: the result of a login, as the screen shows it.
- **DataModel** and **Wrappers** hold the shared records (`Account`, `Conversation`, `Message`, `ConnectionStatus`, `ChatState`) and the `Option`/`Result` types.

In `MessageManagerImpl.sendMessages` nothing catches an exception thrown by `chat.send`, so a failing send ends the batch and the messages after it are not attempted. `MessageExchange.MessageManager.SendMessages` states this, and `MessageExchange.FailedFirstSendDropsTheRest` shows the two-message case.

Inputs taken as parameters:
- the outcome of connect+login (`LoginResult`);
- which positions of a batch fail to send (`failing`);
- the passing of time (`Elapse(ms)`);
- the account and connection status already held by the preferences store;
- the contact's conversation row and message stream as the chat screen first sees them.

## Model

| member | source | states |
|---|---|---|
| ChatFeature.CancelledJobs | feature-chat/src/main/java/io/github/zohrevand/dialogue/feature/chat/ChatViewModel.kt:133-135 | cancelling affects only the job the state holds: that job stops being scheduled, every other job is unchanged, and nothing changes when no job is held |
| ChatFeature.CurrentChatState.ShouldSendComposing | feature-chat/src/main/java/io/github/zohrevand/dialogue/feature/chat/ChatViewModel.kt:137 | true exactly when the recorded state is not Composing; `TypedEffect` proves that a keystroke sends Composing only then |
| ChatFeature.WithDraft | feature-chat/src/main/java/io/github/zohrevand/dialogue/feature/chat/ChatViewModel.kt:120-126 | the draft written into the conversation row when there is one; `TypedEffect` and `SentEffect` prove a keystroke stores the text and a send clears it |
| ChatFeature.WithChatState | feature-chat/src/main/java/io/github/zohrevand/dialogue/feature/chat/ChatViewModel.kt:107-112 | records the state and hands one `SendingChatState` to the outbound repository; `ChatViewModel.SendChatState` follows it |
| ChatFeature.Opened | feature-chat/src/main/java/io/github/zohrevand/dialogue/feature/chat/ChatViewModel.kt:47-54 | the view right after `init`; `OpenedSendsActiveOnce` proves what it sends and keeps |
| ChatFeature.Typed | feature-chat/src/main/java/io/github/zohrevand/dialogue/feature/chat/ChatViewModel.kt:90-105 | `userTyping`; `TypedEffect`, `BurstSendsComposingOnce` and `StepKeepsWellFormed` prove its effect |
| ChatFeature.Sent | feature-chat/src/main/java/io/github/zohrevand/dialogue/feature/chat/ChatViewModel.kt:79-88 | `sendMessage`; `SentEffect` and `SendCancelsPendingPaused` prove its effect |
| ChatFeature.Elapsed | feature-chat/src/main/java/io/github/zohrevand/dialogue/feature/chat/ChatViewModel.kt:94-97 | the delayed Paused job running once its deadline passes; `ElapsedFiresIffDue` and `ElapsedWithoutPendingIsQuiet` prove its effect |
| ChatFeature.OpenedSendsActiveOnce | feature-chat/src/main/java/io/github/zohrevand/dialogue/feature/chat/ChatViewModel.kt:47-54 | opening the chat records Active with no job, sends exactly one Active for the contact, keeps the contact's message stream as it was, and establishes the debouncer invariant |
| ChatFeature.AtMostOneScheduledJob | feature-chat/src/main/java/io/github/zohrevand/dialogue/feature/chat/ChatViewModel.kt:93-98 | under the invariant, no two launched Paused jobs are scheduled at the same time |
| ChatFeature.TypedEffect | feature-chat/src/main/java/io/github/zohrevand/dialogue/feature/chat/ChatViewModel.kt:90-105 | a keystroke writes the draft, cancels every earlier job, schedules one new job 3000 ms ahead, and sends Composing only when the recorded state was not Composing; the state is then Composing |
| ChatFeature.ElapsedFiresIffDue | feature-chat/src/main/java/io/github/zohrevand/dialogue/feature/chat/ChatViewModel.kt:94-97 | with a job pending, passing time sends Paused exactly when its deadline is reached, and otherwise sends nothing and keeps the job pending |
| ChatFeature.ElapsedWithoutPendingIsQuiet | feature-chat/src/main/java/io/github/zohrevand/dialogue/feature/chat/ChatViewModel.kt:94-97 | with no job pending, passing time only moves the clock |
| ChatFeature.SentEffect | feature-chat/src/main/java/io/github/zohrevand/dialogue/feature/chat/ChatViewModel.kt:79-88 | sending cancels the pending job, keeps the recorded chat state, sends no chat state, stores `Message.create(text, contactId)` and clears the draft |
| ChatFeature.BurstSendsComposingOnce | feature-chat/src/main/java/io/github/zohrevand/dialogue/feature/chat/ChatViewModel.kt:100-104 | keystrokes less than 3000 ms apart send Composing once, or not at all if it was already recorded, send no Paused, and leave one job pending |
| ChatFeature.QuietPeriodSendsPausedOnce | feature-chat/src/main/java/io/github/zohrevand/dialogue/feature/chat/ChatViewModel.kt:94-97 | after such keystrokes, 3000 ms of quiet send exactly one Paused, record it, and leave nothing pending |
| ChatFeature.SendCancelsPendingPaused | feature-chat/src/main/java/io/github/zohrevand/dialogue/feature/chat/ChatViewModel.kt:79-80 | a message sent after keystrokes means no Paused is ever sent for them, however long one waits |
| ChatFeature.TypingAfterSendDoesNotResendComposing | feature-chat/src/main/java/io/github/zohrevand/dialogue/feature/chat/ChatViewModel.kt:79-104 | with Composing recorded, sending a message and typing again sends no chat state |
| ChatFeature.StepKeepsWellFormed | feature-chat/src/main/java/io/github/zohrevand/dialogue/feature/chat/ChatViewModel.kt:79-105 | each input keeps the invariant: only the job the state refers to may be scheduled, and it is due within 3000 ms |
| ChatFeature.RunKeepsWellFormed | feature-chat/src/main/java/io/github/zohrevand/dialogue/feature/chat/ChatViewModel.kt:79-105 | every sequence of inputs keeps that invariant |
| ChatFeature.AliceScenario | feature-chat/src/main/java/io/github/zohrevand/dialogue/feature/chat/ChatViewModel.kt:47-112 | open, type "h" and "hi", wait, send, wait: Active, Composing and Paused are sent once each, in that order, and one message is stored |
| ChatFeature.ChatViewModel.constructor | feature-chat/src/main/java/io/github/zohrevand/dialogue/feature/chat/ChatViewModel.kt:47-54 | construction plus `init` gives the opened view: Active is recorded and sent, and the unread count is reset |
| ChatFeature.ChatViewModel.SendChatState | feature-chat/src/main/java/io/github/zohrevand/dialogue/feature/chat/ChatViewModel.kt:107-112 | records the state, keeps the job field, and appends `SendingChatState(contactId, state)` |
| ChatFeature.ChatViewModel.ResetUnreadMessageCount | feature-chat/src/main/java/io/github/zohrevand/dialogue/feature/chat/ChatViewModel.kt:114-118 | sets the conversation's unread count to 0 when there is a conversation, and otherwise changes nothing |
| ChatFeature.ChatViewModel.UpdateDraft | feature-chat/src/main/java/io/github/zohrevand/dialogue/feature/chat/ChatViewModel.kt:120-126 | writes the draft into the conversation when there is one |
| ChatFeature.ChatViewModel.CancelSendingPausedState | feature-chat/src/main/java/io/github/zohrevand/dialogue/feature/chat/ChatViewModel.kt:133-135 | cancels only the held job, and is a no-op without one |
| ChatFeature.ChatViewModel.UserTyping | feature-chat/src/main/java/io/github/zohrevand/dialogue/feature/chat/ChatViewModel.kt:90-105 | follows `Typed`, keeps the invariant, and sends Composing only from a state other than Composing |
| ChatFeature.ChatViewModel.SendMessage | feature-chat/src/main/java/io/github/zohrevand/dialogue/feature/chat/ChatViewModel.kt:79-88 | follows `Sent`, leaves no job pending, and keeps the recorded chat state |
| ChatFeature.ChatViewModel.Elapse | feature-chat/src/main/java/io/github/zohrevand/dialogue/feature/chat/ChatViewModel.kt:94-97 | follows `Elapsed` and keeps the invariant |
| ChatFeature.ChatViewModel.CollectUiState | feature-chat/src/main/java/io/github/zohrevand/dialogue/feature/chat/ChatViewModel.kt:56-72 | with a conversation, the result is Success with it and the messages; with none, the result is Loading and a Started conversation for the contact is written |
| XmppSession.FailureStatus | core-xmpp/src/main/java/io/github/zohrevand/dialogue/core/xmpp/XmppManagerImpl.kt:122-131 | ServerNotFound exactly for an endpoint-connection exception; Unauthorized for every other throwable, including none |
| XmppSession.ConfigurationFor | core-xmpp/src/main/java/io/github/zohrevand/dialogue/core/xmpp/XmppManagerImpl.kt:85-89 | the configuration built from an account; `ConfigurationFromCredentials` proves what it is built from |
| XmppSession.ConfigurationFromCredentials | core-xmpp/src/main/java/io/github/zohrevand/dialogue/core/xmpp/XmppManagerImpl.kt:85-89 | the user name, password and domain are the account's local part, password and domain part, and two accounts get the same configuration exactly when those three agree |
| XmppSession.SetupStepsCompleted | core-xmpp/src/main/java/io/github/zohrevand/dialogue/core/xmpp/XmppManagerImpl.kt:69-73 | how many of the three setup steps complete before connect+login; all three exactly when no setup step throws |
| XmppSession.LoggedIn | core-xmpp/src/main/java/io/github/zohrevand/dialogue/core/xmpp/XmppManagerImpl.kt:44-83 | `login(account)` on a session; `LoginOutcome`, `LoginCalls` and `LoginKeepsInvariant` prove its effect |
| XmppSession.Initialized | core-xmpp/src/main/java/io/github/zohrevand/dialogue/core/xmpp/XmppManagerImpl.kt:32-39 | `initialize()` on a session; `InitializeWithConnectionIsNoOp` and `InitializeWithoutConnection` prove its effect |
| XmppSession.Cleared | core-xmpp/src/main/java/io/github/zohrevand/dialogue/core/xmpp/XmppManagerImpl.kt:143-145 | `onCleared()` on a session; `ClearedEffect` and `ClearedKeepsInvariant` prove its effect |
| XmppSession.ConnectionResult | core-xmpp/src/main/java/io/github/zohrevand/dialogue/core/xmpp/XmppManagerImpl.kt:41-42 | returns the handle exactly when there is one, and otherwise fails with NoSuchElementException("Connection is not established.") |
| XmppSession.InitializeWithConnectionIsNoOp | core-xmpp/src/main/java/io/github/zohrevand/dialogue/core/xmpp/XmppManagerImpl.kt:32-33 | `initialize` changes nothing while a handle exists |
| XmppSession.InitializeWithoutConnection | core-xmpp/src/main/java/io/github/zohrevand/dialogue/core/xmpp/XmppManagerImpl.kt:32-39 | with no handle, `initialize` resets the connection status to the default, then logs in with the stored account if there is one and does nothing more otherwise |
| XmppSession.LoginOutcome | core-xmpp/src/main/java/io/github/zohrevand/dialogue/core/xmpp/XmppManagerImpl.kt:44-83 | the account field is always set first; once setup completes, the handle is a new connection built from the account's configuration on success and absent on failure, whatever it was before; on success the account is stored as Online and the status as available with the connection's authentication flag; on failure the account is stored with the classified status and the connection status is untouched; when a setup step throws, the handle and both stores keep their old values |
| XmppSession.LoginCalls | core-xmpp/src/main/java/io/github/zohrevand/dialogue/core/xmpp/XmppManagerImpl.kt:69-75 | a login whose setup completes creates one connection, enables reconnection, adds the listener, then connects, in that order; when a setup step throws, only the calls before it are made and none connects |
| XmppSession.ClearedEffect | core-xmpp/src/main/java/io/github/zohrevand/dialogue/core/xmpp/XmppManagerImpl.kt:143-145 | `onCleared` removes the listener from the live connection, and does nothing without one |
| XmppSession.LoginKeepsInvariant | core-xmpp/src/main/java/io/github/zohrevand/dialogue/core/xmpp/XmppManagerImpl.kt:69-75 | a login keeps "reconnection enabled and listener added before every connect" and keeps every call naming a created connection |
| XmppSession.ClearedKeepsInvariant | core-xmpp/src/main/java/io/github/zohrevand/dialogue/core/xmpp/XmppManagerImpl.kt:143-145 | `onCleared` keeps the same invariant |
| XmppSession.ApplyKeepsInvariant | core-xmpp/src/main/java/io/github/zohrevand/dialogue/core/xmpp/XmppManagerImpl.kt:32-54 | each of initialize, login and onCleared keeps it |
| XmppSession.ReconnectionConfiguredBeforeEveryConnect | core-xmpp/src/main/java/io/github/zohrevand/dialogue/core/xmpp/XmppManagerImpl.kt:72-75 | on every run of operations, each connection has reconnection enabled and the listener added before its connect+login |
| XmppSession.NoConnectionBeforeSuccessfulLogin | core-xmpp/src/main/java/io/github/zohrevand/dialogue/core/xmpp/XmppManagerImpl.kt:41-42 | until some login succeeds, `getConnection` fails with NoSuchElementException |
| XmppSession.XmppManager.constructor | core-xmpp/src/main/java/io/github/zohrevand/dialogue/core/xmpp/XmppManagerImpl.kt:26-30 | a manager starts with no handle, no account and no library calls |
| XmppSession.XmppManager.Initialize | core-xmpp/src/main/java/io/github/zohrevand/dialogue/core/xmpp/XmppManagerImpl.kt:32-39 | follows `Initialized` and keeps the invariant |
| XmppSession.XmppManager.GetConnection | core-xmpp/src/main/java/io/github/zohrevand/dialogue/core/xmpp/XmppManagerImpl.kt:41-42 | gives what `ConnectionResult` gives on the manager's state: the handle, or NoSuchElementException when it is absent |
| XmppSession.XmppManager.Login | core-xmpp/src/main/java/io/github/zohrevand/dialogue/core/xmpp/XmppManagerImpl.kt:44-54 | sets the account field, then follows `LoggedIn`: the handle is replaced only when `Account.login` returns, not when it throws; keeps the invariant |
| XmppSession.XmppManager.AccountLogin | core-xmpp/src/main/java/io/github/zohrevand/dialogue/core/xmpp/XmppManagerImpl.kt:60-83 | throws exactly when a setup step throws, having made only the calls before it and written no store; otherwise makes the four calls in order, then returns the connection after the success handler, or none after the failure handler |
| XmppSession.XmppManager.ConnectionSuccessHandler | core-xmpp/src/main/java/io/github/zohrevand/dialogue/core/xmpp/XmppManagerImpl.kt:102-120 | stores the account as Online and the status as available with the connection's authentication flag, and returns the connection |
| XmppSession.XmppManager.ConnectionFailureHandler | core-xmpp/src/main/java/io/github/zohrevand/dialogue/core/xmpp/XmppManagerImpl.kt:122-132 | stores the account with the classified status and leaves the connection status alone |
| XmppSession.XmppManager.OnCleared | core-xmpp/src/main/java/io/github/zohrevand/dialogue/core/xmpp/XmppManagerImpl.kt:143-145 | follows `Cleared` and keeps the invariant |
| AuthFeature.StartupUiState | feature-auth/src/main/java/io/github/zohrevand/dialogue/feature/auth/AuthViewModel.kt:35-44 | UserAvailable exactly when the stored account is Online; AuthRequired otherwise, including when no account is stored |
| AuthFeature.StatusUiState | feature-auth/src/main/java/io/github/zohrevand/dialogue/feature/auth/AuthViewModel.kt:63-69 | the UI state an account status leads to, if any; `StatusChangeCases` proves the mapping |
| AuthFeature.StatusChangeUiState | feature-auth/src/main/java/io/github/zohrevand/dialogue/feature/auth/AuthViewModel.kt:62-70 | a status change either leaves the state alone or gives Success or one of the two error messages |
| AuthFeature.StatusChangeCases | feature-auth/src/main/java/io/github/zohrevand/dialogue/feature/auth/AuthViewModel.kt:63-69 | Online gives Success, ServerNotFound gives Error("Server not available"), Unauthorized gives Error("You are not authorized"); any other status, or no account, leaves the state unchanged |
| AuthFeature.StatusChangeIdempotent | feature-auth/src/main/java/io/github/zohrevand/dialogue/feature/auth/AuthViewModel.kt:56-70 | seeing the same account twice gives the same state as seeing it once |
| AuthFeature.AuthViewModel.constructor | feature-auth/src/main/java/io/github/zohrevand/dialogue/feature/auth/AuthViewModel.kt:28 | the state starts as Checking, and nothing is collected yet |
| AuthFeature.AuthViewModel.CheckIfUserAlreadyLoggedIn | feature-auth/src/main/java/io/github/zohrevand/dialogue/feature/auth/AuthViewModel.kt:35-44 | sets the state to the start-up mapping of the stored account |
| AuthFeature.AuthViewModel.Login | feature-auth/src/main/java/io/github/zohrevand/dialogue/feature/auth/AuthViewModel.kt:46-54 | sets the state to Loading, stores the account and starts collecting status changes |
| AuthFeature.AuthViewModel.AccountChanged | feature-auth/src/main/java/io/github/zohrevand/dialogue/feature/auth/AuthViewModel.kt:56-71 | while collecting, the state follows the status-change mapping; before login it is untouched |
| ConversationDao.GetConversationEntity | core-database/src/main/java/io/github/zohrevand/dialogue/core/database/dao/ConversationDao.kt:16-22 | yields the row whose peer JID equals the argument, and nothing when there is none |
| ConversationDao.GetConversationEntitiesStream | core-database/src/main/java/io/github/zohrevand/dialogue/core/database/dao/ConversationDao.kt:24-25 | yields every row and only rows |
| ConversationDao.GetConversationEntitiesStreamWithStatus | core-database/src/main/java/io/github/zohrevand/dialogue/core/database/dao/ConversationDao.kt:30-36 | yields exactly the rows with the given status |
| ConversationDao.IsConversationExists | core-database/src/main/java/io/github/zohrevand/dialogue/core/database/dao/ConversationDao.kt:41-49 | true exactly when some row has that peer JID and a status other than the given one |
| ConversationDao.Upserted | core-database/src/main/java/io/github/zohrevand/dialogue/core/database/dao/ConversationDao.kt:54-55 | the row-level upsert with REPLACE on conflict; `UpsertThenLookup` proves its effect |
| ConversationDao.UpsertedAll | core-database/src/main/java/io/github/zohrevand/dialogue/core/database/dao/ConversationDao.kt:60-61 | the list upsert, one entity after another; `UpsertAllLookup` proves its effect |
| ConversationDao.Deleted | core-database/src/main/java/io/github/zohrevand/dialogue/core/database/dao/ConversationDao.kt:66-72 | the delete by peer JID; `DeleteRemovesOnlyThatRow` proves its effect |
| ConversationDao.UpsertThenLookup | core-database/src/main/java/io/github/zohrevand/dialogue/core/database/dao/ConversationDao.kt:51-55 | upsert keeps the table keyed by peer; a lookup then gives the entity and every other row is unchanged; the table grows only when the peer was absent |
| ConversationDao.UpsertAllLookup | core-database/src/main/java/io/github/zohrevand/dialogue/core/database/dao/ConversationDao.kt:57-61 | after the list upsert, a lookup gives the last entity with that peer JID, or the old row when none has it |
| ConversationDao.DeleteRemovesOnlyThatRow | core-database/src/main/java/io/github/zohrevand/dialogue/core/database/dao/ConversationDao.kt:63-72 | delete removes the row with that peer JID and leaves exactly the other rows |
| ConversationDao.FilteredStreamIsPartOfFullStream | core-database/src/main/java/io/github/zohrevand/dialogue/core/database/dao/ConversationDao.kt:24-36 | the filtered stream is the part of the full stream with that status |
| ConversationDao.ExistsMatchesLookup | core-database/src/main/java/io/github/zohrevand/dialogue/core/database/dao/ConversationDao.kt:41-49 | the existence check agrees with a lookup by peer JID followed by a status test |
| ConversationDao.ConversationTable.Upsert | core-database/src/main/java/io/github/zohrevand/dialogue/core/database/dao/ConversationDao.kt:54-55 | replaces or inserts the row and keeps the table keyed by peer |
| ConversationDao.ConversationTable.UpsertAll | core-database/src/main/java/io/github/zohrevand/dialogue/core/database/dao/ConversationDao.kt:60-61 | upserts each entity in turn and keeps the table keyed by peer |
| ConversationDao.ConversationTable.DeleteConversation | core-database/src/main/java/io/github/zohrevand/dialogue/core/database/dao/ConversationDao.kt:66-72 | removes the row with that peer JID and keeps the table keyed by peer |
| MessageExchange.SendsOf | core-xmpp/src/main/java/io/github/zohrevand/dialogue/core/xmpp/MessageManagerImpl.kt:62-72 | one send per message, in list order, each to the message's peer on the chat manager's connection |
| MessageExchange.FirstFailure | core-xmpp/src/main/java/io/github/zohrevand/dialogue/core/xmpp/MessageManagerImpl.kt:62-72 | the batch stops at the least failing position, or runs to the end when no position fails |
| MessageExchange.StanzaFor | core-xmpp/src/main/java/io/github/zohrevand/dialogue/core/xmpp/MessageManagerImpl.kt:65-68 | the stanza built for a message; `StanzaHasOnlyTheBody` proves what it holds |
| MessageExchange.SendOf | core-xmpp/src/main/java/io/github/zohrevand/dialogue/core/xmpp/MessageManagerImpl.kt:64-70 | one `chat.send` of that stanza to the message's peer; `SendsOf` and `SendsOfAppend` prove how the sends of a batch are made of it |
| MessageExchange.StanzaHasOnlyTheBody | core-xmpp/src/main/java/io/github/zohrevand/dialogue/core/xmpp/MessageManagerImpl.kt:64-68 | the stanza for a message has exactly one body, the message's text |
| MessageExchange.SendsOfAppend | core-xmpp/src/main/java/io/github/zohrevand/dialogue/core/xmpp/MessageManagerImpl.kt:63-71 | sending two batches in turn sends what sending them together does |
| MessageExchange.FailedFirstSendDropsTheRest | core-xmpp/src/main/java/io/github/zohrevand/dialogue/core/xmpp/MessageManagerImpl.kt:62-72 | in a two-message batch, a throwing first send leaves both messages unsent, and with no failure both are sent in order |
| MessageExchange.InitialRegistrationsOnePerKind | core-xmpp/src/main/java/io/github/zohrevand/dialogue/core/xmpp/MessageManagerImpl.kt:55-93 | `initialize` registers exactly four listeners, one of each kind, all on the given connection, none registered before |
| MessageExchange.CurrentAfterInitialize | core-xmpp/src/main/java/io/github/zohrevand/dialogue/core/xmpp/MessageManagerImpl.kt:46-59 | after `initialize` the listeners held in the fields are the four just registered |
| MessageExchange.ClearAfterInitializeRestores | core-xmpp/src/main/java/io/github/zohrevand/dialogue/core/xmpp/MessageManagerImpl.kt:131-143 | teardown right after `initialize` removes exactly the four new listeners and nothing registered earlier |
| MessageExchange.ClearBeforeInitializeRemovesNothing | core-xmpp/src/main/java/io/github/zohrevand/dialogue/core/xmpp/MessageManagerImpl.kt:133-142 | teardown with no manager initialized removes nothing |
| MessageExchange.MessageManager.constructor | core-xmpp/src/main/java/io/github/zohrevand/dialogue/core/xmpp/MessageManagerImpl.kt:35-44 | the scope is active, no manager is initialized, no listener exists and nothing has been sent |
| MessageExchange.MessageManager.Initialize | core-xmpp/src/main/java/io/github/zohrevand/dialogue/core/xmpp/MessageManagerImpl.kt:46-59 | binds the three managers to the connection, starts the collector if the scope is active, sets auto-receipt mode to always, and adds the four new listeners to the registrations |
| MessageExchange.MessageManager.ObserveListeners | core-xmpp/src/main/java/io/github/zohrevand/dialogue/core/xmpp/MessageManagerImpl.kt:74-93 | creates the incoming, outgoing, chat-state and receipt listeners, stores each in its field and registers it |
| MessageExchange.MessageManager.SendMessages | core-xmpp/src/main/java/io/github/zohrevand/dialogue/core/xmpp/MessageManagerImpl.kt:62-72 | with no failing position, appends one send per message in order; otherwise appends the sends before the first failing position and ends with that position's exception |
| MessageExchange.MessageManager.HandleIncomingMessage | core-xmpp/src/main/java/io/github/zohrevand/dialogue/core/xmpp/MessageManagerImpl.kt:95-101 | the handler changes no state |
| MessageExchange.MessageManager.HandleOutgoingMessage | core-xmpp/src/main/java/io/github/zohrevand/dialogue/core/xmpp/MessageManagerImpl.kt:103-109 | the handler changes no state |
| MessageExchange.MessageManager.HandleChatState | core-xmpp/src/main/java/io/github/zohrevand/dialogue/core/xmpp/MessageManagerImpl.kt:111-117 | the handler changes no state |
| MessageExchange.MessageManager.HandleReceivedReceipt | core-xmpp/src/main/java/io/github/zohrevand/dialogue/core/xmpp/MessageManagerImpl.kt:119-129 | the handler changes no state |
| MessageExchange.MessageManager.OnCleared | core-xmpp/src/main/java/io/github/zohrevand/dialogue/core/xmpp/MessageManagerImpl.kt:131-143 | always cancels the scope; removes the listeners of exactly the initialized managers, and nothing when none is initialized; every other field is unchanged |
| LoginFlow.LoginShowsOutcome | feature-auth/src/main/java/io/github/zohrevand/dialogue/feature/auth/AuthViewModel.kt:46-70 | after a login from the screen whose setup completes, the screen shows Success on success, "Server not available" for an unreachable endpoint, and "You are not authorized" for any other failure, and so does not stay Loading; when a setup step throws, no status is written and the screen, which stored the account as Unauthenticated, stays Loading |
| LoginFlow.NextStartupAfterLogin | feature-auth/src/main/java/io/github/zohrevand/dialogue/feature/auth/AuthViewModel.kt:35-44 | the next start-up check finds a user available exactly when the last completed login succeeded; after a setup step throws it finds what it found before |
| DataModel.StartedConversation | feature-chat/src/main/java/io/github/zohrevand/dialogue/feature/chat/ChatViewModel.kt:65-68 | the conversation row the chat screen writes for a new contact; `ChatViewModel.CollectUiState` proves it is written when no row exists |
| DataModel.CreateMessage | feature-chat/src/main/java/io/github/zohrevand/dialogue/feature/chat/ChatViewModel.kt:83 | the message `sendMessage` stores; `SentEffect` proves that the message appended to the contact's stream has the contact as peer and the typed text as body |

## Left out

- Transport library internals are not modelled: TCP connect and login, `ReconnectionManager` retries, stanza building, XEP-0184 receipt handling, and `chatWith` resolving a JID. They are foreign code; the model keeps only their outcomes (an input) and the calls made (a log).
- Coroutine machinery is not modelled: dispatchers, `SupervisorJob`, `stateIn`/`combine`/`WhileSubscribed`, and Flow re-emission. Flows are the current value. A `launch` inside the view models runs at once, except the start-up check that `init` launches in `AuthViewModel`: it is the separate step `CheckIfUserAlreadyLoggedIn`, so that the initial `Checking` state can be seen.
- `delay(3_000)` is a deadline on a millisecond counter, and `Elapse(ms)` is the passing of time.
- `ChatViewModel.uiState` is modelled only as one emission (`CollectUiState`): Success with the conversation, or Loading plus writing a Started conversation. The rest of its combine plumbing is not modelled.
- `Account.create`, `Message.create` and the defaults of `ConnectionStatus` are not part of this model.
  - The account comes from `Account.create` and is a parameter of `AuthViewModel.Login`.
  - `Message.create(text, peerJid)` is taken as the message with that peer and body.
  - `ConnectionStatus()` is taken as not available and not authenticated (`NeutralConnectionStatus`).
- `register` is an unimplemented TODO in the code and is not modelled.
- Logging, dependency injection and the build files are not modelled; they carry no logic.
- Room's SQL engine and threading are not modelled.
  - Streams are sets, since the queries have no ORDER BY.
  - The table is keyed by peer JID; the entity declaring that key is not part of this model.
  - A lookup of a missing peer gives `None`, where the Flow emits nothing or null.
- `MessagesCollector`, which decides which messages to send, is not part of this model. `collecting` only records that the collector was started.
- MessageExchange.MessageManager.SendMessages: requires the chat manager to be initialized. Its only caller is the collector that `initialize` starts after that assignment, so the uninitialized-property exception is not modelled.
- MessageExchange.MessageManager.Initialize: calling it twice overwrites the listener fields. The older listeners stay registered, and the model keeps them in `registrations` but cannot remove them, just as the code cannot.
- XmppSession.XmppManager.Login: an exception thrown by a setup step (building the configuration or the connection, configuring the reconnection manager, adding the listener) escapes `login` and `initialize`. The model records which step threw (`SetupFailed`) and the state it leaves, but not the exception itself or what the caller does with it.
- XmppSession.XmppManager.Login: a second login replaces the handle without disconnecting the old connection or removing its listener, as in the code. The library's own reaction to that is not modelled.
- AuthFeature.AuthViewModel.AccountChanged: each value the preferences store emits is one call. The initial null of `stateIn` leaves the state alone, so it is not a separate step.
- ChatFeature.ChatViewModel.CollectUiState: the messages in `Success` are the contact's message stream as it was on opening plus the messages sent from this screen. Messages that arrive in the stream while the chat is open (inbound ones, or ones written elsewhere) are not modelled.
- ChatFeature.ChatViewModel.CollectUiState: the Started conversation it writes is taken to have no draft and an unread count of 0. The defaults of `Conversation` are not part of this model.
- ChatFeature.ChatViewModel.Elapse: runs only the job the current chat state refers to. The invariant `WellFormed` proves that no other job is still scheduled.
