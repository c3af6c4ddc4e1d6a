/**
 * The decision logic of the chat screen: whether the message input may send,
 * what a send hands to the exchange pipeline, which message is selected, what
 * an assistant bubble shows and which actions a selected message offers.
 *
 * The exchange pipeline itself (streaming send, resend, deletion) is not part
 * of this model: pressing a button yields a `Request` naming the call the view
 * makes.
 */
module ChattingView {
  import opened Wrappers
  import opened ChatModel

  /** Separator placed between a chat's message prefix and the typed text. */
  const PrefixSeparator := "\n\n"

  /** The text field of the message input. */
  datatype Input = Input(text: string)

  /** The message the view hands to the pipeline when the user sends. */
  datatype PlainMessage = PlainMessage(chat: ChatId, role: Role, content: string, processedContent: string)

  /** Calls the view makes into features it does not own. */
  datatype Request =
    | SendWithStream(message: PlainMessage)
    | ResendWithStream(receivingMessage: MessageId)
    | DeleteMessages(ids: seq<MessageId>)
    | CopyToPasteboard(copied: MessageId)

  /**
   * The input is usable when the chat has selected a model and that model is
   * known to the adapter lookup. The lookup's adapter type is left open.
   */
  predicate AdapterReady<A>(chat: Chat, modelToAdapter: map<string, A>) {
    chat.model.Some? && chat.model.value in modelToAdapter
  }

  /** The send button is enabled: something typed, nothing in flight, adapter ready. */
  predicate SendButtonAvailable<A>(input: Input, chat: Chat, modelToAdapter: map<string, A>) {
    input.text != "" && !chat.receiving && AdapterReady(chat, modelToAdapter)
  }

  /** A chat without a selected model never has a ready adapter, whatever the lookup holds. */
  lemma NoModelNotReady<A>(chat: Chat, modelToAdapter: map<string, A>, input: Input)
    requires chat.model.None?
    ensures !AdapterReady(chat, modelToAdapter) && !SendButtonAvailable(input, chat, modelToAdapter)
  {
  }

  /**
   * The text sent to the backend: the chat's prefix, a blank line, then the
   * typed text; without a prefix, the typed text alone.
   */
  function ProcessedContent(prefix: Option<string>, text: string): (r: string)
    ensures |r| >= |text| && r[|r| - |text|..] == text
    ensures prefix.None? ==> |r| == |text|
    ensures prefix.Some? ==>
      && |r| == |prefix.value| + |PrefixSeparator| + |text|
      && r[..|prefix.value|] == prefix.value
      && r[|prefix.value|..|prefix.value| + |PrefixSeparator|] == PrefixSeparator
  {
    (if prefix.Some? then prefix.value + PrefixSeparator else "") + text
  }

  /** Recovers the typed text from processed content, when it has the prefixed shape. */
  function StripPrefix(prefix: Option<string>, processed: string): (r: Option<string>)
    ensures r.Some? ==> |r.value| <= |processed|
  {
    match prefix
    case None => Some(processed)
    case Some(p) =>
      var head := p + PrefixSeparator;
      if |head| <= |processed| && processed[..|head|] == head then Some(processed[|head|..]) else None
  }

  /** Stripping the prefix inverts processing, and processing inverts every successful strip. */
  lemma StripPrefixRoundTrip(prefix: Option<string>, text: string, processed: string)
    ensures StripPrefix(prefix, ProcessedContent(prefix, text)) == Some(text)
    ensures StripPrefix(prefix, processed) == Some(text) ==> ProcessedContent(prefix, text) == processed
  {
    if prefix.Some? {
      var head := prefix.value + PrefixSeparator;
      var r := ProcessedContent(prefix, text);
      assert r == head + text;
      assert r[..|head|] == head;
      assert r[|head|..] == text;
      if StripPrefix(prefix, processed) == Some(text) {
        assert processed == processed[..|head|] + processed[|head|..];
      }
    }
  }

  /** Typing into the field: the field is disabled, so edits are dropped, while the adapter is not ready. */
  function EditText<A>(input: Input, chat: Chat, modelToAdapter: map<string, A>, typed: string): (r: Input)
    ensures AdapterReady(chat, modelToAdapter) ==> r.text == typed
    ensures !AdapterReady(chat, modelToAdapter) ==> r == input
  {
    if AdapterReady(chat, modelToAdapter) then Input(typed) else input
  }

  /** Applies a series of edits to the field. */
  function EditAll<A>(input: Input, chat: Chat, modelToAdapter: map<string, A>, edits: seq<string>): (r: Input)
    decreases |edits|
  {
    if edits == [] then input
    else EditAll(EditText(input, chat, modelToAdapter, edits[0]), chat, modelToAdapter, edits[1..])
  }

  /** While the adapter is not ready, no series of edits changes the field, so nothing ever becomes sendable. */
  lemma {:induction false} EditsIgnoredWhenNotReady<A>(input: Input, chat: Chat, modelToAdapter: map<string, A>, edits: seq<string>)
    requires !AdapterReady(chat, modelToAdapter)
    ensures EditAll(input, chat, modelToAdapter, edits) == input
    ensures !SendButtonAvailable(EditAll(input, chat, modelToAdapter, edits), chat, modelToAdapter)
    decreases |edits|
  {
    if edits != [] {
      EditsIgnoredWhenNotReady(EditText(input, chat, modelToAdapter, edits[0]), chat, modelToAdapter, edits[1..]);
    }
  }

  /** What pressing the send button does. */
  datatype SendOutcome = Ignored | Dispatched(input: Input, request: Request)

  /**
   * Pressing send while the button is unavailable does nothing. Otherwise the
   * typed text is captured as a user message of this chat, its processed form
   * carries the chat's prefix, and the field is cleared.
   */
  function PressSend<A>(input: Input, chat: Chat, modelToAdapter: map<string, A>): (r: SendOutcome)
    ensures r.Dispatched? <==> SendButtonAvailable(input, chat, modelToAdapter)
    ensures r.Dispatched? ==>
      && r.input.text == ""
      && r.request.SendWithStream?
      && r.request.message.chat == chat.id
      && r.request.message.role == User
      && r.request.message.content == input.text
      && StripPrefix(chat.messagePrefix, r.request.message.processedContent) == Some(input.text)
  {
    if !SendButtonAvailable(input, chat, modelToAdapter) then Ignored
    else
      var messageContent := input.text;
      var processed := ProcessedContent(chat.messagePrefix, messageContent);
      StripPrefixRoundTrip(chat.messagePrefix, messageContent, processed);
      Dispatched(Input(""), SendWithStream(PlainMessage(chat.id, User, messageContent, processed)))
  }

  /**
   * The send button waits for all three gates; readiness depends only on
   * whether the chat's model has an entry in the lookup, not on which adapter
   * that entry holds; and a chat with an exchange in flight ignores presses.
   */
  lemma SendGates<A, B>(input: Input, chat: Chat, m1: map<string, A>, m2: map<string, B>)
    ensures SendButtonAvailable(input, chat, m1) <==>
      input.text != "" && !chat.receiving && chat.model.Some? && chat.model.value in m1
    ensures m1.Keys == m2.Keys ==> (AdapterReady(chat, m1) <==> AdapterReady(chat, m2))
    ensures chat.receiving ==> PressSend(input, chat, m1) == Ignored
  {
  }

  /** One press sends at most one message: pressing again right after a send does nothing. */
  lemma NoDoubleSend<A>(input: Input, chat: Chat, modelToAdapter: map<string, A>)
    requires PressSend(input, chat, modelToAdapter).Dispatched?
    ensures PressSend(PressSend(input, chat, modelToAdapter).input, chat, modelToAdapter) == Ignored
  {
  }

  /** The message with this id is the selected one. */
  predicate Active(activation: Option<MessageId>, id: MessageId) {
    activation == Some(id)
  }

  /**
   * Tapping a message: deselects it when it is the selected one, otherwise
   * selects it (and so deselects any other).
   */
  function ToggleActive(activation: Option<MessageId>, id: MessageId): (r: Option<MessageId>)
    ensures Active(r, id) <==> !Active(activation, id)
    ensures forall other :: other != id ==> !Active(r, other)
  {
    if Active(activation, id) then None else Some(id)
  }

  /**
   * A tap always changes the selection, and tapping the same message twice
   * restores the selection exactly when it started with nothing or that
   * message selected.
   */
  lemma ToggleTwice(activation: Option<MessageId>, id: MessageId)
    ensures ToggleActive(activation, id) != activation
    ensures ToggleActive(ToggleActive(activation, id), id) == activation <==> activation.None? || activation == Some(id)
  {
  }

  /** How many of the listed messages are selected. */
  function CountActive(activation: Option<MessageId>, ids: seq<MessageId>): nat
    decreases |ids|
  {
    if ids == [] then 0
    else (if Active(activation, ids[0]) then 1 else 0) + CountActive(activation, ids[1..])
  }

  /**
   * Every message item of the list is bound to the same selection, so among
   * distinct messages at most one is selected, and one is exactly when the
   * selection names a listed message.
   */
  lemma {:induction false} SelectionIsExclusive(activation: Option<MessageId>, ids: seq<MessageId>)
    requires forall i, j :: 0 <= i < j < |ids| ==> ids[i] != ids[j]
    ensures CountActive(activation, ids) <= 1
    ensures CountActive(activation, ids) == 1 <==> activation.Some? && activation.value in ids
    decreases |ids|
  {
    if ids != [] {
      var rest := ids[1..];
      assert forall i, j :: 0 <= i < j < |rest| ==> rest[i] == ids[i + 1] && rest[j] == ids[j + 1];
      SelectionIsExclusive(activation, rest);
      assert ids == [ids[0]] + rest;
      if Active(activation, ids[0]) {
        assert ids[0] !in rest;
      }
    }
  }

  /** What an assistant bubble shows. */
  datatype Bubble = ShowContent(text: string) | ShowSpinner | ShowFailure(reason: FailReason) | ShowNothing

  /** Content wins over the spinner, which wins over the failure reason. */
  function AssistantBubble(m: Message): (r: Bubble)
    ensures m.content.Some? ==> r == ShowContent(m.content.value)
    ensures r.ShowSpinner? <==> m.content.None? && m.receiving
    ensures r.ShowFailure? <==> m.content.None? && !m.receiving && m.failedReason.Some?
    ensures r.ShowFailure? ==> r.reason == m.failedReason.value
    ensures r == ShowNothing <==> m.content.None? && !m.receiving && m.failedReason.None?
  {
    match m.content
    case Some(content) => ShowContent(content)
    case None =>
      if m.receiving then ShowSpinner
      else match m.failedReason
        case Some(reason) => ShowFailure(reason)
        case None => ShowNothing
  }

  /**
   * A message in one of its three legal states always shows something (its
   * content, a spinner or a reason), and one still receiving never shows a
   * failure.
   */
  lemma BubbleNeverEmpty(m: Message)
    requires WellFormed(m)
    ensures AssistantBubble(m) != ShowNothing
    ensures m.receiving ==> !AssistantBubble(m).ShowFailure?
  {
  }

  /** A user bubble shows its content, or nothing when there is none. */
  function UserBubbleText(m: Message): (r: string)
    ensures m.content.Some? ==> r == m.content.value
    ensures m.content.None? ==> r == ""
  {
    m.content.GetOr("")
  }

  /**
   * The bubble of a user message created from what send dispatched shows the
   * typed text, not the processed content that went to the backend; the two
   * differ whenever the chat has a prefix.
   */
  lemma SentMessageShowsTypedText<A>(input: Input, chat: Chat, modelToAdapter: map<string, A>, m: Message)
    requires PressSend(input, chat, modelToAdapter).Dispatched?
    requires m.content == Some(PressSend(input, chat, modelToAdapter).request.message.content)
    ensures UserBubbleText(m) == input.text
    ensures chat.messagePrefix.Some? ==>
      UserBubbleText(m) != PressSend(input, chat, modelToAdapter).request.message.processedContent
  {
    var processed := PressSend(input, chat, modelToAdapter).request.message.processedContent;
    if chat.messagePrefix.Some? {
      StripPrefixRoundTrip(chat.messagePrefix, input.text, processed);
      assert |processed| == |chat.messagePrefix.value| + |PrefixSeparator| + |input.text|;
    }
  }

  /** Buttons of a message's action bar. */
  datatype Action = Delete | Copy | Resend

  /**
   * The action bar of a selected message. An assistant message offers delete,
   * copy and resend only while it is not receiving; a user message offers copy
   * and delete.
   */
  function OfferedActions(m: Message, active: bool): (r: set<Action>)
    ensures r != {} ==> active
    ensures Resend in r <==> m.role == Assistant && active && !m.receiving
    ensures m.role == Assistant ==> (r != {} <==> active && !m.receiving)
    ensures m.role == User ==> (r != {} <==> active) && Resend !in r
    ensures r != {} ==> Copy in r && Delete in r
  {
    match m.role
    case Assistant => if active && !m.receiving then {Delete, Copy, Resend} else {}
    case User => if active then {Copy, Delete} else {}
  }

  /** What pressing an offered action does: the new selection and the call made. */
  datatype ActionOutcome = ActionOutcome(activation: Option<MessageId>, request: Request)

  /**
   * Delete removes just this message; copy copies it and deselects it; resend
   * deselects it and restarts the exchange on the same message record.
   */
  function PressAction(action: Action, activation: Option<MessageId>, m: Message): (r: ActionOutcome)
    requires action in OfferedActions(m, Active(activation, m.id))
    ensures action == Delete ==> r.request == DeleteMessages([m.id]) && r.activation == activation
    ensures action == Copy ==> r.request == CopyToPasteboard(m.id) && r.activation.None?
    ensures action == Resend ==> r.request == ResendWithStream(m.id) && r.activation.None? && m.role == Assistant
  {
    match action
    case Delete => ActionOutcome(activation, DeleteMessages([m.id]))
    case Copy => ActionOutcome(ToggleActive(activation, m.id), CopyToPasteboard(m.id))
    case Resend => ActionOutcome(ToggleActive(activation, m.id), ResendWithStream(m.id))
  }

  /**
   * Copy and resend close the action bar they were pressed on; delete leaves
   * the selection alone, its message being gone.
   */
  lemma ActionClosesBar(action: Action, activation: Option<MessageId>, m: Message)
    requires action in OfferedActions(m, Active(activation, m.id))
    ensures action != Delete ==> OfferedActions(m, Active(PressAction(action, activation, m).activation, m.id)) == {}
    ensures action == Delete ==> OfferedActions(m, Active(PressAction(action, activation, m).activation, m.id)) == OfferedActions(m, Active(activation, m.id))
  {
  }
}
