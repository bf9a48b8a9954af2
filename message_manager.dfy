/**
 * The message manager (MessageManagerImpl): the outbound send loop and the lifecycle of
 * the four listeners it registers with the transport library's managers.
 *
 * Connections are named by their number. Library state that the manager changes (which
 * listeners are registered, the receipt mode, what was sent) is held in fields.
 */
module MessageExchange {
  import opened Wrappers
  import opened DataModel

  type ConnectionId = nat

  datatype ListenerKind = IncomingMessage | OutgoingMessage | ChatStateChange | ReceiptReceived

  /** A listener object; `serial` tells the ones created by successive initializations apart. */
  datatype Listener = Listener(kind: ListenerKind, serial: nat)

  /** A listener added to the manager of a connection. */
  datatype Registration = Registration(connection: ConnectionId, listener: Listener)

  datatype AutoReceiptMode = Disabled | IfIsSubscribed | Always

  /** A message body with its language; the source passes a null language. */
  datatype Body = Body(language: Option<string>, text: string)

  datatype Stanza = Stanza(bodies: seq<Body>)

  /** One `chat.send(..)`: on which connection, to which bare JID, what stanza. */
  datatype SentStanza = SentStanza(connection: ConnectionId, to: string, stanza: Stanza)

  /** How `sendMessages` ended: every message sent, or a send threw at `index`. */
  datatype SendOutcome = Completed | Threw(index: nat)

  /** The stanza built for a message: a single body, without a language. */
  function StanzaFor(message: Message): Stanza
  {
    Stanza([Body(None, message.body)])
  }

  function SendOf(connection: ConnectionId, message: Message): SentStanza
  {
    SentStanza(connection, message.peerJid, StanzaFor(message))
  }

  /** The stanzas that sending `messages` in order puts on `connection`. */
  function SendsOf(connection: ConnectionId, messages: seq<Message>): (r: seq<SentStanza>)
    ensures |r| == |messages|
    ensures forall k :: 0 <= k < |messages| ==> r[k] == SendOf(connection, messages[k])
  {
    if messages == [] then [] else SendsOf(connection, messages[..|messages| - 1]) + [SendOf(connection, messages[|messages| - 1])]
  }

  /** Where a batch stops: at the first failing send, if any. */
  function FirstFailure(count: nat, failing: set<nat>): (r: Option<nat>)
    ensures r.Some? ==> r.value < count && r.value in failing && forall k :: 0 <= k < r.value ==> k !in failing
    ensures r.None? ==> forall k :: 0 <= k < count ==> k !in failing
  {
    FirstFailureFrom(0, count, failing)
  }

  function FirstFailureFrom(from: nat, count: nat, failing: set<nat>): (r: Option<nat>)
    requires from <= count
    ensures r.Some? ==> from <= r.value < count && r.value in failing && forall k :: from <= k < r.value ==> k !in failing
    ensures r.None? ==> forall k :: from <= k < count ==> k !in failing
    decreases count - from
  {
    if from == count then None
    else if from in failing then Some(from)
    else FirstFailureFrom(from + 1, count, failing)
  }

  /** The stanza for a message holds exactly one body, the message's text. */
  lemma StanzaHasOnlyTheBody(message: Message)
    ensures |StanzaFor(message).bodies| == 1
    ensures StanzaFor(message).bodies[0].text == message.body
  {
  }

  /** Sending two batches one after the other sends what sending them together does. */
  lemma {:induction false} SendsOfAppend(connection: ConnectionId, a: seq<Message>, b: seq<Message>)
    ensures SendsOf(connection, a + b) == SendsOf(connection, a) + SendsOf(connection, b)
    decreases |b|
  {
    if b == [] {
      assert a + b == a;
    } else {
      var init := b[..|b| - 1];
      assert a + b == (a + init) + [b[|b| - 1]];
      assert (a + b)[..|a + b| - 1] == a + init;
      SendsOfAppend(connection, a, init);
    }
  }

  /**
   * A batch of two whose first send throws transmits nothing: the loop does not catch,
   * so the second message is never attempted.
   */
  lemma FailedFirstSendDropsTheRest(connection: ConnectionId, m1: Message, m2: Message)
    ensures FirstFailure(2, {0}) == Some(0)
    ensures SendsOf(connection, [m1, m2][..0]) == []
    ensures FirstFailure(2, {}) == None
    ensures SendsOf(connection, [m1, m2]) == [SendOf(connection, m1), SendOf(connection, m2)]
  {
  }

  /** The four listeners `initialize` registers on `connection`, numbered from `n`. */
  function InitialRegistrations(connection: ConnectionId, n: nat): set<Registration>
  {
    {Registration(connection, Listener(IncomingMessage, n)),
     Registration(connection, Listener(OutgoingMessage, n + 1)),
     Registration(connection, Listener(ChatStateChange, n + 2)),
     Registration(connection, Listener(ReceiptReceived, n + 3))}
  }

  /**
   * `initialize` registers exactly four listeners, one of each kind, all on the given
   * connection, none of them registered before.
   */
  lemma InitialRegistrationsOnePerKind(connection: ConnectionId, n: nat, before: set<Registration>)
    requires forall r :: r in before ==> r.listener.serial < n
    ensures |InitialRegistrations(connection, n)| == 4
    ensures forall kind: ListenerKind :: HasKind(InitialRegistrations(connection, n), kind)
    ensures forall r, q :: (r in InitialRegistrations(connection, n) && q in InitialRegistrations(connection, n) &&
      r.listener.kind == q.listener.kind) ==> r == q
    ensures InitialRegistrations(connection, n) !! before
    ensures forall r :: r in InitialRegistrations(connection, n) ==> r.connection == connection
  {
    var a := Registration(connection, Listener(IncomingMessage, n));
    var b := Registration(connection, Listener(OutgoingMessage, n + 1));
    var c := Registration(connection, Listener(ChatStateChange, n + 2));
    var d := Registration(connection, Listener(ReceiptReceived, n + 3));
    var ab := {a} + {b};
    var abc := ab + {c};
    assert |ab| == 2;
    assert c !in ab;
    assert |abc| == 3;
    assert d !in abc;
    assert InitialRegistrations(connection, n) == abc + {d};
  }

  /** The registration of `listener` on the manager bound to `manager`, if both are set. */
  function RegistrationOf(manager: Option<ConnectionId>, listener: Option<Listener>): set<Registration>
  {
    if manager.Some? && listener.Some? then {Registration(manager.value, listener.value)} else {}
  }

  /** The registrations the current listeners have on the initialized managers. */
  function CurrentRegistrations(chatManager: Option<ConnectionId>, chatStateManager: Option<ConnectionId>,
                                deliveryReceiptManager: Option<ConnectionId>,
                                incoming: Option<Listener>, outgoing: Option<Listener>,
                                chatState: Option<Listener>, receipt: Option<Listener>): set<Registration>
  {
    RegistrationOf(chatManager, incoming) + RegistrationOf(chatManager, outgoing)
    + RegistrationOf(chatStateManager, chatState) + RegistrationOf(deliveryReceiptManager, receipt)
  }

  /** Right after `initialize(connection)` the current registrations are the four new ones. */
  lemma CurrentAfterInitialize(connection: ConnectionId, n: nat)
    ensures CurrentRegistrations(Some(connection), Some(connection), Some(connection),
      Some(Listener(IncomingMessage, n)), Some(Listener(OutgoingMessage, n + 1)),
      Some(Listener(ChatStateChange, n + 2)), Some(Listener(ReceiptReceived, n + 3)))
      == InitialRegistrations(connection, n)
  {
  }

  /**
   * `onCleared` right after `initialize` removes exactly the four listeners `initialize`
   * added, and no registration made before it.
   */
  lemma ClearAfterInitializeRestores(before: set<Registration>, connection: ConnectionId, n: nat)
    requires forall r :: r in before ==> r.listener.serial < n
    ensures (before + InitialRegistrations(connection, n)) -
      CurrentRegistrations(Some(connection), Some(connection), Some(connection),
        Some(Listener(IncomingMessage, n)), Some(Listener(OutgoingMessage, n + 1)),
        Some(Listener(ChatStateChange, n + 2)), Some(Listener(ReceiptReceived, n + 3)))
      == before
  {
    CurrentAfterInitialize(connection, n);
    InitialRegistrationsOnePerKind(connection, n, before);
  }

  /** Before `initialize` no manager is set, so `onCleared` removes nothing. */
  lemma ClearBeforeInitializeRemovesNothing(incoming: Option<Listener>, outgoing: Option<Listener>,
                                            chatState: Option<Listener>, receipt: Option<Listener>)
    ensures CurrentRegistrations(None, None, None, incoming, outgoing, chatState, receipt) == {}
  {
  }

  /** Adding the four new registrations keeps every serial below the new count. */
  lemma InitialRegistrationsBelow(before: set<Registration>, connection: ConnectionId, n: nat)
    requires forall r :: r in before ==> r.listener.serial < n
    ensures forall r :: r in before + InitialRegistrations(connection, n) ==> r.listener.serial < n + 4
  {
  }

  /** Some registration in `rs` carries a listener of `kind`. */
  ghost predicate HasKind(rs: set<Registration>, kind: ListenerKind)
  {
    exists r :: r in rs && r.listener.kind == kind
  }

  /**
   * MessageManagerImpl. `chatManager`, `chatStateManager` and `deliveryReceiptManager`
   * are `lateinit`: None until initialized, then the connection they belong to.
   */
  class MessageManager {
    var scopeActive: bool
    var collecting: bool
    var chatManager: Option<ConnectionId>
    var chatStateManager: Option<ConnectionId>
    var deliveryReceiptManager: Option<ConnectionId>
    var incomingChatMessageListener: Option<Listener>
    var outgoingChatMessageListener: Option<Listener>
    var chatStateListener: Option<Listener>
    var receiptReceivedListener: Option<Listener>
    var registrations: set<Registration>
    var autoReceiptModes: map<ConnectionId, AutoReceiptMode>
    var sent: seq<SentStanza>
    var listenersCreated: nat

    /** Each initialized manager carries the listeners registered on it. */
    ghost predicate Valid()
      reads this
    {
      && (chatManager.Some? ==> incomingChatMessageListener.Some? && outgoingChatMessageListener.Some?)
      && (chatStateManager.Some? ==> chatStateListener.Some?)
      && (deliveryReceiptManager.Some? ==> receiptReceivedListener.Some?)
      && (forall r :: r in registrations ==> r.listener.serial < listenersCreated)
    }

    /** The registrations of the current listeners on the managers that are initialized. */
    ghost function Current(): set<Registration>
      reads this
    {
      CurrentRegistrations(chatManager, chatStateManager, deliveryReceiptManager,
        incomingChatMessageListener, outgoingChatMessageListener, chatStateListener, receiptReceivedListener)
    }

    /** A manager never initialized, with nothing registered and nothing sent. */
    constructor ()
      ensures Valid()
      ensures scopeActive && !collecting
      ensures chatManager.None? && chatStateManager.None? && deliveryReceiptManager.None?
      ensures incomingChatMessageListener.None? && outgoingChatMessageListener.None?
      ensures chatStateListener.None? && receiptReceivedListener.None?
      ensures registrations == {} && autoReceiptModes == map[] && sent == []
    {
      scopeActive := true;
      collecting := false;
      chatManager := None;
      chatStateManager := None;
      deliveryReceiptManager := None;
      incomingChatMessageListener := None;
      outgoingChatMessageListener := None;
      chatStateListener := None;
      receiptReceivedListener := None;
      registrations := {};
      autoReceiptModes := map[];
      sent := [];
      listenersCreated := 0;
    }

    /**
     * `initialize(connection)`: binds the three managers to the connection, starts the
     * outbound collector (unless the scope was cancelled), sets the receipt mode to
     * always and registers four new listeners, one of each kind.
     */
    method Initialize(connection: ConnectionId)
      requires Valid()
      modifies this
      ensures Valid()
      ensures chatManager == Some(connection) && chatStateManager == Some(connection)
      ensures deliveryReceiptManager == Some(connection)
      ensures collecting == (old(collecting) || scopeActive) && scopeActive == old(scopeActive)
      ensures autoReceiptModes == old(autoReceiptModes)[connection := Always]
      ensures listenersCreated == old(listenersCreated) + 4
      ensures incomingChatMessageListener == Some(Listener(IncomingMessage, old(listenersCreated)))
      ensures outgoingChatMessageListener == Some(Listener(OutgoingMessage, old(listenersCreated) + 1))
      ensures chatStateListener == Some(Listener(ChatStateChange, old(listenersCreated) + 2))
      ensures receiptReceivedListener == Some(Listener(ReceiptReceived, old(listenersCreated) + 3))
      ensures registrations == old(registrations) + InitialRegistrations(connection, old(listenersCreated))
      ensures sent == old(sent)
    {
      chatManager := Some(connection);
      chatStateManager := Some(connection);
      deliveryReceiptManager := Some(connection);
      if scopeActive {
        collecting := true;
      }
      var n := listenersCreated;
      InitialRegistrationsBelow(registrations, connection, n);
      ObserveListeners(connection);
      autoReceiptModes := autoReceiptModes[connection := Always];
    }

    /**
     * `observeIncomingMessages`, `observeOutgoingMessages`, `observeChatState` and
     * `observeDeliveryReceipt`: each creates a listener and adds it to its manager.
     */
    method ObserveListeners(connection: ConnectionId)
      modifies this`incomingChatMessageListener, this`outgoingChatMessageListener
      modifies this`chatStateListener, this`receiptReceivedListener
      modifies this`registrations, this`listenersCreated
      ensures listenersCreated == old(listenersCreated) + 4
      ensures incomingChatMessageListener == Some(Listener(IncomingMessage, old(listenersCreated)))
      ensures outgoingChatMessageListener == Some(Listener(OutgoingMessage, old(listenersCreated) + 1))
      ensures chatStateListener == Some(Listener(ChatStateChange, old(listenersCreated) + 2))
      ensures receiptReceivedListener == Some(Listener(ReceiptReceived, old(listenersCreated) + 3))
      ensures registrations == old(registrations) + InitialRegistrations(connection, old(listenersCreated))
    {
      var n := listenersCreated;
      incomingChatMessageListener := Some(Listener(IncomingMessage, n));
      outgoingChatMessageListener := Some(Listener(OutgoingMessage, n + 1));
      chatStateListener := Some(Listener(ChatStateChange, n + 2));
      receiptReceivedListener := Some(Listener(ReceiptReceived, n + 3));
      listenersCreated := n + 4;
      registrations := registrations + InitialRegistrations(connection, n);
    }

    /**
     * `sendMessages(messages)`: one send per message, in order, on the chat manager's
     * connection. `failing` holds the positions whose send throws; nothing catches the
     * exception, so the messages after the first failing one are not sent.
     */
    method SendMessages(messages: seq<Message>, failing: set<nat>) returns (outcome: SendOutcome)
      requires chatManager.Some?
      modifies this`sent
      ensures match FirstFailure(|messages|, failing)
        case None => outcome == Completed && sent == old(sent) + SendsOf(chatManager.value, messages)
        case Some(k) => outcome == Threw(k) && sent == old(sent) + SendsOf(chatManager.value, messages[..k])
    {
      var connection := chatManager.value;
      var i := 0;
      while i < |messages|
        invariant 0 <= i <= |messages|
        invariant forall k :: 0 <= k < i ==> k !in failing
        invariant sent == old(sent) + SendsOf(connection, messages[..i])
      {
        if i in failing {
          assert FirstFailure(|messages|, failing) == Some(i);
          return Threw(i);
        }
        sent := sent + [SendOf(connection, messages[i])];
        assert messages[..i + 1] == messages[..i] + [messages[i]];
        SendsOfAppend(connection, messages[..i], [messages[i]]);
        i := i + 1;
      }
      assert messages[..i] == messages;
      outcome := Completed;
    }

    method HandleIncomingMessage(from: string, message: Message)
      ensures unchanged(this)
    {
    }

    method HandleOutgoingMessage(to: string, message: Message)
      ensures unchanged(this)
    {
    }

    method HandleChatState(state: ChatState, message: Message)
      ensures unchanged(this)
    {
    }

    method HandleReceivedReceipt(fromJid: Option<string>, toJid: Option<string>, receiptId: Option<string>)
      ensures unchanged(this)
    {
    }

    /**
     * `onCleared()`: cancels the scope, then removes each manager's listeners, but only
     * from the managers that were initialized.
     */
    method OnCleared()
      requires Valid()
      modifies this
      ensures Valid()
      ensures !scopeActive && !collecting
      ensures registrations == old(registrations) - old(Current())
      ensures chatManager.None? && chatStateManager.None? && deliveryReceiptManager.None? ==>
        registrations == old(registrations)
      ensures chatManager == old(chatManager) && chatStateManager == old(chatStateManager)
      ensures deliveryReceiptManager == old(deliveryReceiptManager)
      ensures incomingChatMessageListener == old(incomingChatMessageListener)
      ensures outgoingChatMessageListener == old(outgoingChatMessageListener)
      ensures chatStateListener == old(chatStateListener) && receiptReceivedListener == old(receiptReceivedListener)
      ensures autoReceiptModes == old(autoReceiptModes) && sent == old(sent)
      ensures listenersCreated == old(listenersCreated)
    {
      scopeActive := false;
      collecting := false;
      if chatManager.Some? {
        registrations := registrations - {Registration(chatManager.value, incomingChatMessageListener.value)};
        registrations := registrations - {Registration(chatManager.value, outgoingChatMessageListener.value)};
      }
      if chatStateManager.Some? {
        registrations := registrations - {Registration(chatStateManager.value, chatStateListener.value)};
      }
      if deliveryReceiptManager.Some? {
        registrations := registrations - {Registration(deliveryReceiptManager.value, receiptReceivedListener.value)};
      }
    }
  }
}
