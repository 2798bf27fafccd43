/**
 * The shapes of src/types/chat.ts and the prompt entries of src/lib/openai.ts.
 * Ids are strings; timestamps are ticks of an abstract monotone clock.
 */
module ChatTypes {
  import opened Wrappers

  datatype Role = USER | ASSISTANT | SYSTEM

  datatype Message = Message(
    id: string,
    content: string,
    role: Role,
    conversationId: string,
    createdAt: nat)

  datatype Conversation = Conversation(
    id: string,
    title: string,
    userId: string,
    createdAt: nat,
    updatedAt: nat)

  /** The body of a request to the stream endpoint; an absent field is `None`. */
  datatype ChatRequest = ChatRequest(message: Option<string>, conversationId: Option<string>)

  /** One event of the stream; `None` fields are left out when the event is serialised. */
  datatype StreamResponse = StreamResponse(
    content: string,
    done: bool,
    conversationId: Option<string>,
    messageId: Option<string>)

  /** The lower-case roles the completion provider accepts. */
  datatype PromptRole = system | user | assistant

  datatype ChatEntry = ChatEntry(role: PromptRole, content: string)

  /** `role.toLowerCase()` on a stored role. */
  function LowerRole(r: Role): PromptRole {
    match r
    case USER => user
    case ASSISTANT => assistant
    case SYSTEM => system
  }
}
