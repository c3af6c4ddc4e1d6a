/**
 * The records the chat screen works on: conversations (`Chat`) and their
 * messages, as plain immutable values instead of persisted objects.
 */
module ChatModel {
  import opened Wrappers

  type ChatId = nat
  type MessageId = nat

  datatype Role = User | Assistant

  /**
   * Why an exchange failed. The message's real failure-reason type is defined
   * outside the modelled files; this enumeration is an assumed stand-in, and
   * the model only ever copies a reason from a message into what it shows.
   */
  datatype FailReason =
    | Unauthorized | RateLimited | Network | MalformedResponse | Unknown
    | Cancelled | AdapterUnavailable

  /**
   * A conversation: the backend model it targets (if one is selected), the
   * optional prefix put in front of every outgoing message, and whether an
   * exchange is in flight.
   */
  datatype Chat = Chat(id: ChatId, name: string, model: Option<string>, messagePrefix: Option<string>, receiving: bool)

  /**
   * A message of one conversation. `content` is absent while an assistant
   * reply has produced nothing yet; `processedContent` is what was sent to the
   * backend for a user message.
   */
  datatype Message = Message(
    id: MessageId,
    chat: ChatId,
    role: Role,
    timestamp: int,
    content: Option<string>,
    processedContent: Option<string>,
    receiving: bool,
    failedReason: Option<FailReason>)

  /** The chat's message predicate: the message belongs to this conversation. */
  predicate BelongsTo(m: Message, c: Chat) {
    m.chat == c.id
  }

  /**
   * The three states a message may be in: receiving (no failure reason yet),
   * complete (content present, no failure reason), failed (a reason recorded).
   */
  predicate WellFormed(m: Message) {
    if m.receiving then m.failedReason.None?
    else m.content.Some? || m.failedReason.Some?
  }
}
