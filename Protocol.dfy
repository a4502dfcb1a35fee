/**
  The records and socket events exchanged between the relay and its clients: the
  persisted conversation and message documents, the `sendMessage` payload, and the three
  events the server emits into a room.
*/
module Protocol {
  import opened Wrappers

  /** A message's author tag, 'user' or 'assistant'. */
  datatype Role = UserRole | AssistantRole

  /** An authenticated principal; `id` is the string form of its database id, which also names its room. */
  datatype User = User(id: string, username: string)

  /** A conversation document: its owner's id, a title derived from the first message, timestamps. */
  datatype Conversation = Conversation(id: string, owner: string, title: string, createdAt: int, updatedAt: int)

  /** A message document; `image` and `segmentationMask` are upload paths or null. */
  datatype Message = Message(
    id: string,
    conversation: string,
    role: Role,
    content: string,
    image: Option<string>,
    segmentationMask: Option<string>,
    createdAt: int)

  /** The `sendMessage` payload: raw text, an inlined data URL or null, a conversation id or null. */
  datatype SendData = SendData(content: string, image: Option<string>, conversationId: Option<string>)

  /** Server-to-client events: `newConversation`, `messageReceived`, `messageError {message}`. */
  datatype Event =
    | NewConversation(conversation: Conversation)
    | MessageReceived(msg: Message)
    | MessageError(text: string)
}
