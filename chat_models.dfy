/** The records the chat component passes around (src/chat/models.py). */
module ChatModels {
  import opened Wrappers

  const UserRole := "user"
  const AssistantRole := "assistant"

  /** One structured-history record: its `type` ("user" or "assistant") and its content. */
  datatype ChatMessage = ChatMessage(kind: string, content: string)

  /**
   * The session state: the human-readable transcript, the structured history,
   * the pending user input and the last response.
   */
  datatype ChatState = ChatState(
    messages: seq<string>,
    chatHistory: seq<ChatMessage>,
    userInput: Option<string>,
    response: Option<string>)

  /**
   * The external completion service, given the user text and the system message:
   * it returns the reply text, or raises (Raised carries `str(e)`).
   */
  type Completion = (string, string) -> Outcome<string>
}
