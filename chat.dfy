/**
 * The chat screen's typing-indicator debouncer (ChatViewModel and CurrentChatState).
 *
 * Time is a millisecond counter. Every "send Paused" coroutine that a keystroke launches
 * is kept in `jobs`, indexed by the order of launch, so that the state of every job,
 * not only of the one the current chat state refers to, can be spoken about.
 */
module ChatFeature {
  import opened Wrappers
  import opened DataModel

  /** `delay(3_000)` before the Paused state is sent. */
  const PausedDelay: nat := 3000

  /** A launched "send Paused" job. */
  datatype JobStatus = Scheduled(deadline: nat) | Cancelled | Completed

  /** A job is named by its position in the list of launched jobs. */
  type JobId = nat

  /** The recorded chat state and the job it holds, if any. */
  datatype CurrentChatState = CurrentChatState(chatState: ChatState, sendingPausedStateJob: Option<JobId>)
  {
    predicate ShouldSendComposing()
    {
      chatState != Composing
    }
  }

  /** What is handed to the outbound chat state repository. */
  datatype SendingChatState = SendingChatState(peerJid: string, chatState: ChatState)

  datatype ChatUiState = Loading | Success(conversation: Conversation, messages: seq<Message>)

  /** The inputs that drive the debouncer: user actions and the passing of time. */
  datatype ChatEvent = UserTyping(messageText: string) | SendMessage(text: string) | Elapse(ms: nat)

  /**
   * Everything the view model reads and writes: its own state, the jobs it launched,
   * and the repositories as far as it writes to them (the chat states sent, the
   * conversation row of the contact and the contact's message stream).
   */
  datatype ChatView = ChatView(
    contactId: string,
    now: nat,
    currentChatState: CurrentChatState,
    jobs: seq<JobStatus>,
    sentChatStates: seq<SendingChatState>,
    conversation: Option<Conversation>,
    messages: seq<Message>)

  /** The jobs after `cancelSendingPausedState`, which cancels the referenced job if it is still scheduled. */
  function CancelledJobs(jobs: seq<JobStatus>, job: Option<JobId>): (r: seq<JobStatus>)
    ensures |r| == |jobs|
    ensures forall i :: 0 <= i < |jobs| && job != Some(i) ==> r[i] == jobs[i]
    ensures forall i :: 0 <= i < |jobs| ==> (r[i].Scheduled? <==> jobs[i].Scheduled? && job != Some(i))
    ensures forall i :: 0 <= i < |jobs| && !jobs[i].Scheduled? ==> r[i] == jobs[i]
  {
    match job
    case Some(id) => if id < |jobs| && jobs[id].Scheduled? then jobs[id := Cancelled] else jobs
    case None => jobs
  }

  /** The conversation row after `updateDraft`, which writes the draft into the conversation row, when there is one. */
  function WithDraft(conversation: Option<Conversation>, draft: Option<string>): Option<Conversation>
  {
    match conversation
    case Some(c) => Some(c.(draftMessage := draft))
    case None => None
  }

  /** The view after `sendChatState`, which records the state and hands it to the outbound repository. */
  function WithChatState(v: ChatView, chatState: ChatState): ChatView
  {
    v.(currentChatState := v.currentChatState.(chatState := chatState),
       sentChatStates := v.sentChatStates + [SendingChatState(v.contactId, chatState)])
  }

  /**
   * The view model right after `init`: Active sent, unread count of the conversation reset.
   * `messages` is what the contact's message stream holds when the chat is opened.
   */
  function Opened(contactId: string, conversation: Option<Conversation>, messages: seq<Message>, now: nat): ChatView
  {
    var initial := ChatView(contactId, now, CurrentChatState(Active, None), [], [], conversation, messages);
    var active := WithChatState(initial, Active);
    active.(conversation := match conversation
                            case Some(c) => Some(c.(unreadMessagesCount := 0))
                            case None => None)
  }

  /** `userTyping(messageText)`. */
  function Typed(v: ChatView, messageText: string): ChatView
  {
    var drafted := v.(conversation := WithDraft(v.conversation, Some(messageText)));
    var jobs := CancelledJobs(drafted.jobs, drafted.currentChatState.sendingPausedStateJob);
    var scheduled := drafted.(
      jobs := jobs + [Scheduled(v.now + PausedDelay)],
      currentChatState := drafted.currentChatState.(sendingPausedStateJob := Some(|jobs|)));
    if scheduled.currentChatState.ShouldSendComposing() then WithChatState(scheduled, Composing) else scheduled
  }

  /** `sendMessage(text)`. */
  function Sent(v: ChatView, text: string): ChatView
  {
    v.(jobs := CancelledJobs(v.jobs, v.currentChatState.sendingPausedStateJob),
       messages := v.messages + [CreateMessage(text, v.contactId)],
       conversation := WithDraft(v.conversation, None))
  }

  /** `ms` milliseconds pass; the pending Paused job runs if its delay is over. */
  function Elapsed(v: ChatView, ms: nat): ChatView
  {
    var later := v.(now := v.now + ms);
    match v.currentChatState.sendingPausedStateJob
    case Some(id) =>
      if id < |v.jobs| && v.jobs[id].Scheduled? && v.jobs[id].deadline <= later.now
      then WithChatState(later.(jobs := v.jobs[id := Completed]), Paused)
      else later
    case None => later
  }

  function Step(v: ChatView, e: ChatEvent): ChatView
  {
    match e
    case UserTyping(text) => Typed(v, text)
    case SendMessage(text) => Sent(v, text)
    case Elapse(ms) => Elapsed(v, ms)
  }

  function Run(v: ChatView, es: seq<ChatEvent>): ChatView
    decreases |es|
  {
    if es == [] then v else Run(Step(v, es[0]), es[1..])
  }

  /**
   * The debouncer's invariant: the only job that can still be scheduled is the one the
   * current chat state refers to, and it is due within the next PausedDelay milliseconds.
   */
  ghost predicate WellFormed(v: ChatView)
  {
    && (v.currentChatState.sendingPausedStateJob.Some? ==> v.currentChatState.sendingPausedStateJob.value < |v.jobs|)
    && forall i :: 0 <= i < |v.jobs| && v.jobs[i].Scheduled? ==>
         && v.currentChatState.sendingPausedStateJob == Some(i)
         && v.now < v.jobs[i].deadline <= v.now + PausedDelay
  }

  /** A Paused job is pending: the current job is still scheduled. */
  ghost predicate PausedPending(v: ChatView)
  {
    match v.currentChatState.sendingPausedStateJob
    case Some(id) => id < |v.jobs| && v.jobs[id].Scheduled?
    case None => false
  }

  /** The Composing notification a keystroke sends from state `s`, if any. */
  function ComposingFrom(contactId: string, s: ChatState): seq<SendingChatState>
  {
    if s == Composing then [] else [SendingChatState(contactId, Composing)]
  }

  /** A keystroke and the time that passes before the next input. */
  datatype Keystroke = Keystroke(text: string, gap: nat)

  function Burst(ks: seq<Keystroke>): seq<ChatEvent>
  {
    if ks == [] then [] else [UserTyping(ks[0].text), Elapse(ks[0].gap)] + Burst(ks[1..])
  }

  /** Every keystroke is followed by the next input before the Paused delay is over. */
  ghost predicate QuickSuccession(ks: seq<Keystroke>)
  {
    forall k :: 0 <= k < |ks| ==> ks[k].gap < PausedDelay
  }

  // ---------------------------------------------------------------------------
  // Properties of the transition functions
  // ---------------------------------------------------------------------------

  lemma OpenedSendsActiveOnce(contactId: string, conversation: Option<Conversation>, messages: seq<Message>, now: nat)
    ensures var v := Opened(contactId, conversation, messages, now);
      && v.sentChatStates == [SendingChatState(contactId, Active)]
      && v.currentChatState == CurrentChatState(Active, None)
      && v.jobs == [] && v.messages == messages
      && WellFormed(v)
  {
  }

  /** At every moment at most one launched Paused job is still scheduled. */
  lemma AtMostOneScheduledJob(v: ChatView, i: nat, j: nat)
    requires WellFormed(v)
    requires i < |v.jobs| && j < |v.jobs|
    requires v.jobs[i].Scheduled? && v.jobs[j].Scheduled?
    ensures i == j
  {
  }

  /**
   * A keystroke cancels the job held before, schedules a new one PausedDelay later,
   * sends Composing only if the recorded state is not Composing, and writes the draft.
   */
  lemma TypedEffect(v: ChatView, text: string)
    requires WellFormed(v)
    ensures var r := Typed(v, text);
      && WellFormed(r)
      && r.currentChatState.chatState == Composing
      && r.currentChatState.sendingPausedStateJob == Some(|v.jobs|)
      && |r.jobs| == |v.jobs| + 1
      && r.jobs[|v.jobs|] == Scheduled(v.now + PausedDelay)
      && (forall i :: 0 <= i < |v.jobs| ==> !r.jobs[i].Scheduled?)
      && r.sentChatStates == v.sentChatStates + ComposingFrom(v.contactId, v.currentChatState.chatState)
      && r.now == v.now && r.messages == v.messages
      && r.conversation == WithDraft(v.conversation, Some(text))
  {
    var jobs := CancelledJobs(v.jobs, v.currentChatState.sendingPausedStateJob);
    forall i | 0 <= i < |v.jobs|
      ensures !jobs[i].Scheduled?
    {
      if v.jobs[i].Scheduled? {
        assert v.currentChatState.sendingPausedStateJob == Some(i);
      }
    }
  }

  /** Passing time fires the pending Paused job exactly when its deadline is reached. */
  lemma ElapsedFiresIffDue(v: ChatView, ms: nat)
    requires WellFormed(v) && PausedPending(v)
    ensures var r := Elapsed(v, ms);
      var deadline := v.jobs[v.currentChatState.sendingPausedStateJob.value].deadline;
      && WellFormed(r)
      && r.now == v.now + ms && r.messages == v.messages && r.contactId == v.contactId
      && (v.now + ms >= deadline <==> r.sentChatStates == v.sentChatStates + [SendingChatState(v.contactId, Paused)])
      && (v.now + ms < deadline <==> r.sentChatStates == v.sentChatStates)
      && (v.now + ms >= deadline ==> r.currentChatState.chatState == Paused && !PausedPending(r))
      && (v.now + ms < deadline ==> r.currentChatState == v.currentChatState && PausedPending(r))
  {
    var id := v.currentChatState.sendingPausedStateJob.value;
    var r := Elapsed(v, ms);
    if v.now + ms >= v.jobs[id].deadline {
      assert r.jobs == v.jobs[id := Completed];
      forall i | 0 <= i < |r.jobs| ensures !r.jobs[i].Scheduled? {
        if i != id {
          assert r.jobs[i] == v.jobs[i];
        }
      }
      assert |r.sentChatStates| == |v.sentChatStates| + 1;
    }
  }

  /** With no Paused job pending, passing time sends nothing and changes only the clock. */
  lemma ElapsedWithoutPendingIsQuiet(v: ChatView, ms: nat)
    requires WellFormed(v) && !PausedPending(v)
    ensures Elapsed(v, ms) == v.(now := v.now + ms)
    ensures WellFormed(Elapsed(v, ms)) && !PausedPending(Elapsed(v, ms))
  {
  }

  /**
   * Sending a message cancels the pending Paused job, keeps the recorded chat state,
   * stores the message and clears the draft.
   */
  lemma SentEffect(v: ChatView, text: string)
    requires WellFormed(v)
    ensures var r := Sent(v, text);
      && WellFormed(r)
      && !PausedPending(r)
      && r.currentChatState == v.currentChatState
      && r.sentChatStates == v.sentChatStates
      && r.messages == v.messages + [Message(v.contactId, text)]
      && (r.conversation.Some? <==> v.conversation.Some?)
      && (r.conversation.Some? ==> r.conversation.value.draftMessage.None?)
  {
    var r := Sent(v, text);
    forall i | 0 <= i < |r.jobs| ensures !r.jobs[i].Scheduled? {
      if v.jobs[i].Scheduled? {
        assert v.currentChatState.sendingPausedStateJob == Some(i);
      }
    }
  }

  lemma RunAppend(v: ChatView, a: seq<ChatEvent>, b: seq<ChatEvent>)
    ensures Run(v, a + b) == Run(Run(v, a), b)
    decreases |a|
  {
    if a == [] {
      assert a + b == b;
    } else {
      assert (a + b)[0] == a[0];
      assert (a + b)[1..] == a[1..] + b;
      RunAppend(Step(v, a[0]), a[1..], b);
    }
  }

  lemma RunTwo(v: ChatView, a: ChatEvent, b: ChatEvent)
    ensures Run(v, [a, b]) == Step(Step(v, a), b)
  {
    calc {
      Run(v, [a, b]);
      { assert [a, b][0] == a && [a, b][1..] == [b]; }
      Run(Step(v, a), [b]);
      { assert [b][0] == b && [b][1..] == []; }
      Run(Step(Step(v, a), b), []);
    }
  }

  /**
   * A run of keystrokes in quick succession sends Composing at most once (exactly once
   * when the recorded state was not Composing) and no Paused, and leaves a Paused job pending.
   */
  lemma {:induction false} BurstSendsComposingOnce(v: ChatView, ks: seq<Keystroke>)
    requires WellFormed(v) && |ks| > 0 && QuickSuccession(ks)
    ensures var r := Run(v, Burst(ks));
      && WellFormed(r)
      && PausedPending(r)
      && r.currentChatState.chatState == Composing
      && r.sentChatStates == v.sentChatStates + ComposingFrom(v.contactId, v.currentChatState.chatState)
      && r.contactId == v.contactId && r.messages == v.messages
    decreases |ks|
  {
    var t := Typed(v, ks[0].text);
    TypedEffect(v, ks[0].text);
    assert PausedPending(t);
    ElapsedFiresIffDue(t, ks[0].gap);
    var e := Elapsed(t, ks[0].gap);
    var rest := Burst(ks[1..]);
    assert Burst(ks) == [UserTyping(ks[0].text), Elapse(ks[0].gap)] + rest;
    RunAppend(v, [UserTyping(ks[0].text), Elapse(ks[0].gap)], rest);
    RunTwo(v, UserTyping(ks[0].text), Elapse(ks[0].gap));
    if |ks| > 1 {
      BurstSendsComposingOnce(e, ks[1..]);
    } else {
      assert ks[1..] == [];
    }
  }

  /**
   * After a run of keystrokes, a quiet period of PausedDelay milliseconds sends exactly
   * one Paused, records it, and leaves nothing pending.
   */
  lemma QuietPeriodSendsPausedOnce(v: ChatView, ks: seq<Keystroke>, ms: nat)
    requires WellFormed(v) && |ks| > 0 && QuickSuccession(ks) && ms >= PausedDelay
    ensures var r := Run(v, Burst(ks) + [Elapse(ms)]);
      && WellFormed(r)
      && !PausedPending(r)
      && r.currentChatState.chatState == Paused
      && r.sentChatStates == v.sentChatStates + ComposingFrom(v.contactId, v.currentChatState.chatState)
           + [SendingChatState(v.contactId, Paused)]
      && r.messages == v.messages && r.contactId == v.contactId
  {
    var b := Run(v, Burst(ks));
    BurstSendsComposingOnce(v, ks);
    RunAppend(v, Burst(ks), [Elapse(ms)]);
    RunOne(b, Elapse(ms));
    var id := b.currentChatState.sendingPausedStateJob.value;
    assert b.jobs[id].deadline <= b.now + ms;
    ElapsedFiresIffDue(b, ms);
  }

  lemma RunOne(v: ChatView, e: ChatEvent)
    ensures Run(v, [e]) == Step(v, e)
  {
    assert [e][0] == e && [e][1..] == [];
  }

  /**
   * A message sent after a run of keystrokes cancels the pending Paused job: however much
   * time passes afterwards, no Paused is sent.
   */
  lemma SendCancelsPendingPaused(v: ChatView, ks: seq<Keystroke>, text: string, ms: nat)
    requires WellFormed(v) && |ks| > 0 && QuickSuccession(ks)
    ensures var r := Run(v, Burst(ks) + [SendMessage(text), Elapse(ms)]);
      && WellFormed(r)
      && !PausedPending(r)
      && r.currentChatState.chatState == Composing
      && r.sentChatStates == v.sentChatStates + ComposingFrom(v.contactId, v.currentChatState.chatState)
  {
    var b := Run(v, Burst(ks));
    BurstSendsComposingOnce(v, ks);
    RunAppend(v, Burst(ks), [SendMessage(text), Elapse(ms)]);
    SentEffect(b, text);
    var s := Sent(b, text);
    ElapsedWithoutPendingIsQuiet(s, ms);
    RunTwo(b, SendMessage(text), Elapse(ms));
  }

  /** Sending does not touch the recorded state, so typing on while Composing sends nothing. */
  lemma TypingAfterSendDoesNotResendComposing(v: ChatView, text: string, next: string)
    requires WellFormed(v) && v.currentChatState.chatState == Composing
    ensures Typed(Sent(v, text), next).sentChatStates == v.sentChatStates
  {
    SentEffect(v, text);
    TypedEffect(Sent(v, text), next);
  }

  lemma StepKeepsWellFormed(v: ChatView, e: ChatEvent)
    requires WellFormed(v)
    ensures WellFormed(Step(v, e))
  {
    match e
    case UserTyping(text) => TypedEffect(v, text);
    case SendMessage(text) => SentEffect(v, text);
    case Elapse(ms) =>
      if PausedPending(v) {
        ElapsedFiresIffDue(v, ms);
      } else {
        ElapsedWithoutPendingIsQuiet(v, ms);
      }
  }

  /** Every sequence of inputs keeps the debouncer's invariant. */
  lemma {:induction false} RunKeepsWellFormed(v: ChatView, es: seq<ChatEvent>)
    requires WellFormed(v)
    ensures WellFormed(Run(v, es))
    decreases |es|
  {
    if es != [] {
      StepKeepsWellFormed(v, es[0]);
      RunKeepsWellFormed(Step(v, es[0]), es[1..]);
    }
  }

  /**
   * Open a conversation with alice, type "h" and then "hi", stay quiet for the delay,
   * send "hi" and wait again: Active, Composing and Paused are sent once each, in order.
   */
  lemma AliceScenario(conversation: Option<Conversation>)
    ensures var alice := "alice@example.com";
      var r := Run(Opened(alice, conversation, [], 0),
                   Burst([Keystroke("h", 200), Keystroke("hi", 0)])
                   + [Elapse(PausedDelay), SendMessage("hi"), Elapse(10000)]);
      && r.sentChatStates == [SendingChatState(alice, Active), SendingChatState(alice, Composing), SendingChatState(alice, Paused)]
      && r.messages == [Message(alice, "hi")]
      && !PausedPending(r)
  {
    var alice := "alice@example.com";
    var v := Opened(alice, conversation, [], 0);
    var ks := [Keystroke("h", 200), Keystroke("hi", 0)];
    OpenedSendsActiveOnce(alice, conversation, [], 0);
    QuietPeriodSendsPausedOnce(v, ks, PausedDelay);
    var p := Run(v, Burst(ks) + [Elapse(PausedDelay)]);
    SentEffect(p, "hi");
    ElapsedWithoutPendingIsQuiet(Sent(p, "hi"), 10000);
    RunAppend(v, Burst(ks) + [Elapse(PausedDelay)], [SendMessage("hi"), Elapse(10000)]);
    assert Burst(ks) + [Elapse(PausedDelay)] + [SendMessage("hi"), Elapse(10000)]
        == Burst(ks) + [Elapse(PausedDelay), SendMessage("hi"), Elapse(10000)];
    RunTwo(p, SendMessage("hi"), Elapse(10000));
  }

  // ---------------------------------------------------------------------------
  // The view model
  // ---------------------------------------------------------------------------

  /**
   * ChatViewModel for one contact. The repositories it writes to appear as the fields
   * `sentChatStates` (outbound chat states), `conversation` (the contact's conversation
   * row) and `messages` (the contact's message stream, which the messages sent here
   * are stored into); `now` is the coroutine clock.
   */
  class ChatViewModel {
    const contactId: string
    var now: nat
    var currentChatState: CurrentChatState
    var jobs: seq<JobStatus>
    var sentChatStates: seq<SendingChatState>
    var conversation: Option<Conversation>
    var messages: seq<Message>

    function View(): ChatView
      reads this
    {
      ChatView(contactId, now, currentChatState, jobs, sentChatStates, conversation, messages)
    }

    ghost predicate Valid()
      reads this
    {
      WellFormed(View())
    }

    /** Construction followed by `init`: Active is sent and the unread count is reset. */
    constructor (contactId: string, conversation: Option<Conversation>, messages: seq<Message>, now: nat)
      ensures Valid()
      ensures View() == Opened(contactId, conversation, messages, now)
      ensures sentChatStates == [SendingChatState(contactId, Active)]
      ensures currentChatState == CurrentChatState(Active, None)
    {
      this.contactId := contactId;
      this.now := now;
      currentChatState := CurrentChatState(Active, None);
      jobs := [];
      sentChatStates := [];
      this.conversation := conversation;
      this.messages := messages;
      new;
      SendChatState(Active);
      ResetUnreadMessageCount();
    }

    /** Records `chatState`, keeping the job, and hands it to the outbound repository. */
    method SendChatState(chatState: ChatState)
      modifies this
      ensures currentChatState == CurrentChatState(chatState, old(currentChatState).sendingPausedStateJob)
      ensures sentChatStates == old(sentChatStates) + [SendingChatState(contactId, chatState)]
      ensures now == old(now) && jobs == old(jobs)
      ensures conversation == old(conversation) && messages == old(messages)
    {
      currentChatState := currentChatState.(chatState := chatState);
      sentChatStates := sentChatStates + [SendingChatState(contactId, chatState)];
    }

    method ResetUnreadMessageCount()
      modifies this
      ensures conversation.Some? <==> old(conversation).Some?
      ensures conversation.Some? ==> conversation.value == old(conversation).value.(unreadMessagesCount := 0)
      ensures now == old(now) && currentChatState == old(currentChatState) && jobs == old(jobs)
      ensures sentChatStates == old(sentChatStates) && messages == old(messages)
    {
      if conversation.Some? {
        conversation := Some(conversation.value.(unreadMessagesCount := 0));
      }
    }

    method UpdateDraft(messageText: Option<string>)
      modifies this
      ensures conversation == WithDraft(old(conversation), messageText)
      ensures now == old(now) && currentChatState == old(currentChatState) && jobs == old(jobs)
      ensures sentChatStates == old(sentChatStates) && messages == old(messages)
    {
      if conversation.Some? {
        conversation := Some(conversation.value.(draftMessage := messageText));
      }
    }

    /** Cancels the job held by the current chat state; a no-op when there is none. */
    method CancelSendingPausedState()
      modifies this
      ensures jobs == CancelledJobs(old(jobs), currentChatState.sendingPausedStateJob)
      ensures currentChatState.sendingPausedStateJob.None? ==> jobs == old(jobs)
      ensures now == old(now) && currentChatState == old(currentChatState) && conversation == old(conversation)
      ensures sentChatStates == old(sentChatStates) && messages == old(messages)
    {
      match currentChatState.sendingPausedStateJob
      case Some(id) =>
        if id < |jobs| && jobs[id].Scheduled? {
          jobs := jobs[id := Cancelled];
        }
      case None =>
    }

    method UserTyping(messageText: string)
      requires Valid()
      modifies this
      ensures Valid()
      ensures View() == Typed(old(View()), messageText)
      ensures sentChatStates == old(sentChatStates) + ComposingFrom(contactId, old(currentChatState).chatState)
    {
      UpdateDraft(Some(messageText));
      CancelSendingPausedState();
      var job := |jobs|;
      jobs := jobs + [Scheduled(now + PausedDelay)];
      currentChatState := currentChatState.(sendingPausedStateJob := Some(job));
      if currentChatState.ShouldSendComposing() {
        SendChatState(Composing);
      }
      TypedEffect(old(View()), messageText);
    }

    method SendMessage(text: string)
      requires Valid()
      modifies this
      ensures Valid()
      ensures View() == Sent(old(View()), text)
      ensures !PausedPending(View()) && currentChatState == old(currentChatState)
    {
      CancelSendingPausedState();
      messages := messages + [CreateMessage(text, contactId)];
      UpdateDraft(None);
      SentEffect(old(View()), text);
    }

    /** `ms` milliseconds pass on the coroutine clock; a due Paused job runs. */
    method Elapse(ms: nat)
      requires Valid()
      modifies this
      ensures Valid()
      ensures View() == Elapsed(old(View()), ms)
    {
      now := now + ms;
      match currentChatState.sendingPausedStateJob {
        case Some(id) =>
          if id < |jobs| && jobs[id].Scheduled? && jobs[id].deadline <= now {
            jobs := jobs[id := Completed];
            SendChatState(Paused);
          }
        case None =>
      }
      StepKeepsWellFormed(old(View()), ChatEvent.Elapse(ms));
    }

    /** One emission of `uiState`: with no conversation row yet, a Started one is written. */
    method CollectUiState() returns (ui: ChatUiState)
      requires Valid()
      modifies this
      ensures Valid()
      ensures old(conversation).Some? ==> ui == ChatUiState.Success(old(conversation).value, messages) && conversation == old(conversation)
      ensures old(conversation).None? ==> ui == Loading && conversation == Some(StartedConversation(contactId))
      ensures now == old(now) && currentChatState == old(currentChatState) && jobs == old(jobs)
      ensures sentChatStates == old(sentChatStates) && messages == old(messages)
    {
      if conversation.Some? {
        ui := ChatUiState.Success(conversation.value, messages);
      } else {
        conversation := Some(StartedConversation(contactId));
        ui := Loading;
      }
    }
  }
}
