/**
 * The older single-file chat agent (src/chat_agent.py). Its node appends to the
 * caller's own lists, so the lists are objects shared between the state it is
 * given and the state it returns.
 */
module ChatAgent {
  import opened Wrappers
  import opened Text
  import opened SharedLists
  import opened ChatModels
  import opened Configuration
  import MessageHandling
  import Workflow

  const AgentSystemMessage := "You are a helpful assistant. Keep responses concise and friendly."

  /** Same model and endpoint as the chat package, with this node's own system message. */
  const AgentConfig := DefaultChatConfig.(systemMessage := AgentSystemMessage)

  const MissingKeyError := "Error: " + MissingKeyMessage

  /** The state dictionary: two list references and two plain values. */
  datatype AgentChatState = AgentChatState(
    messages: SharedList<string>,
    chatHistory: SharedList<ChatMessage>,
    userInput: Option<string>,
    response: Option<string>)

  /** The contents of the state at the current point in the heap. */
  ghost function Snapshot(s: AgentChatState): ChatState
    reads s.messages, s.chatHistory
  {
    ChatState(s.messages.items, s.chatHistory.items, s.userInput, s.response)
  }

  /**
   * `chat_node`: the missing-key check comes first and fires even without input;
   * with a key it behaves as the message handler does, but in place.
   */
  method ChatNode(env: Environment, llm: Completion, state: AgentChatState) returns (r: AgentChatState)
    modifies state.messages, state.chatHistory
    ensures r.messages == state.messages && r.chatHistory == state.chatHistory
    ensures !Truthy(ApiKey(env)) ==>
              state.messages.items == old(state.messages.items) + [MissingKeyError] &&
              state.chatHistory.items == old(state.chatHistory.items) &&
              r.userInput == state.userInput && r.response == Some(MissingKeyError)
    ensures Truthy(ApiKey(env)) && !Truthy(state.userInput) ==>
              r == state && unchanged(state.messages, state.chatHistory)
    ensures Truthy(ApiKey(env)) ==>
              Snapshot(r) == MessageHandling.ProcessMessage(AgentConfig, llm, old(Snapshot(state)))
  {
    var apiKey := ApiKey(env);
    if !Truthy(apiKey) {
      state.messages.Append(MissingKeyError);
      return state.(response := Some(MissingKeyError));
    }
    var userInput := state.userInput;
    if !Truthy(userInput) {
      return state;
    }
    var input := userInput.value;
    match llm(input, AgentSystemMessage)
    case Returned(responseText) =>
      state.messages.Append("User: " + input);
      state.messages.Append("Assistant: " + responseText);
      state.chatHistory.Append(ChatMessage(UserRole, input));
      state.chatHistory.Append(ChatMessage(AssistantRole, responseText));
      r := state.(response := Some(responseText), userInput := None);
    case Raised(error) =>
      var errorText := "Error: " + error;
      state.messages.Append(errorText);
      r := state.(response := Some(errorText));
  }

  /** `should_continue_chat`: the same rule as the chat package's router. */
  function ShouldContinueChat(s: AgentChatState): (r: Route)
    ensures r == Continue <==>
              Truthy(s.userInput) && forall q :: q in Workflow.QuitWords ==> !Workflow.SameIgnoringCase(s.userInput.value, q)
  {
    if s.userInput.Some? then
      Workflow.LowersToQuitWord(s.userInput.value);
      if s.userInput.value != "" && LowerAscii(s.userInput.value) !in ["quit", "exit", "bye"] then Continue else End
    else End
  }

  /** The two routers agree on every state with the same pending input. */
  lemma RoutersAgree(s: AgentChatState, c: ChatState)
    requires c.userInput == s.userInput
    ensures ShouldContinueChat(s) == Workflow.ShouldContinue(c)
  {
  }
}
