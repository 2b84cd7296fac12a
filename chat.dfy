/**
 * The chat-completion vocabulary shared by every feature that talks to the
 * language model: the messages sent, and what a completion request yields.
 */
module Chat {
  import opened Wrappers

  datatype Role = System | User

  /**
   * One `{ role, content }` entry of a chat request; the content is `None`
   * where it is `null`, as a logged reply without content is.
   */
  datatype Message = Message(role: Role, content: Option<string>)

  /**
   * What a chat-completion request yields: it throws, or it answers with the
   * first choice's content, which may be missing (`null`).
   */
  datatype Completion = CompletionFailed | Completed(content: Option<string>)
}
