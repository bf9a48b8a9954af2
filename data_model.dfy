/**
 * The records shared by the chat client's components: accounts, connection status,
 * chat states, conversations and messages.
 */
module DataModel {
  import opened Wrappers

  /** Chat state notification values (XEP-0085, section 2). */
  datatype ChatState = Active | Composing | Paused | Inactive | Gone

  /** Status of the one active account; only the session manager changes it after creation. */
  datatype AccountStatus = Unauthenticated | Online | Unauthorized | ServerNotFound

  datatype Account = Account(localPart: string, domainPart: string, password: string, status: AccountStatus)

  /** Snapshot of the connection, overwritten as a whole. */
  datatype ConnectionStatus = ConnectionStatus(availability: bool, authenticated: bool)

  /** The value `ConnectionStatus()` is taken to have: not available, not authenticated. */
  const NeutralConnectionStatus: ConnectionStatus := ConnectionStatus(false, false)

  /**
   * Only `Started` is named by the modelled code; every other status is told apart by name.
   * An `OtherStatus` never carries the name "Started": that status is `Started` itself.
   */
  datatype ConversationStatus = Started | OtherStatus(name: string)

  /** A conversation row; `peerJid` identifies it. */
  datatype Conversation = Conversation(
    peerJid: string,
    status: ConversationStatus,
    draftMessage: Option<string>,
    unreadMessagesCount: nat)

  /** A new conversation as `Conversation(peerJid = p, status = Started)` builds it. */
  function StartedConversation(peerJid: string): Conversation
  {
    Conversation(peerJid, Started, None, 0)
  }

  /** An outbound chat message: who it goes to and its text. */
  datatype Message = Message(peerJid: string, body: string)

  /** `Message.create(text, peerJid)`. */
  function CreateMessage(text: string, peerJid: string): Message
  {
    Message(peerJid, text)
  }
}
