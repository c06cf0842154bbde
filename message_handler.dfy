/** One chat turn as a state transition (src/chat/message_handler.py). */
module MessageHandling {
  import opened Wrappers
  import opened ChatModels
  import opened Configuration

  /** `state.get("user_input")` is truthy: a pending, non-empty input. */
  predicate HasInput(s: ChatState) {
    Truthy(s.userInput)
  }

  /**
   * `_update_state_success`: copies of both logs, each extended by the user
   * entry and then the assistant entry; the input is consumed.
   */
  function UpdateStateSuccess(s: ChatState, userInput: string, responseText: string): (r: ChatState)
    ensures |r.messages| == |s.messages| + 2 && r.messages[..|s.messages|] == s.messages
    ensures r.messages[|s.messages|] == "User: " + userInput
    ensures r.messages[|s.messages| + 1] == "Assistant: " + responseText
    ensures |r.chatHistory| == |s.chatHistory| + 2 && r.chatHistory[..|s.chatHistory|] == s.chatHistory
    ensures r.chatHistory[|s.chatHistory|] == ChatMessage(UserRole, userInput)
    ensures r.chatHistory[|s.chatHistory| + 1] == ChatMessage(AssistantRole, responseText)
    ensures r.userInput == None && r.response == Some(responseText)
  {
    ChatState(
      s.messages + ["User: " + userInput, "Assistant: " + responseText],
      s.chatHistory + [ChatMessage(UserRole, userInput), ChatMessage(AssistantRole, responseText)],
      None,
      Some(responseText))
  }

  /**
   * `_update_state_error`: the transcript gains one "Error: ..." entry; history and
   * pending input are carried over; the response is the error text.
   */
  function UpdateStateError(s: ChatState, errorMessage: string): (r: ChatState)
    ensures |r.messages| == |s.messages| + 1 && r.messages[..|s.messages|] == s.messages
    ensures r.messages[|s.messages|] == "Error: " + errorMessage
    ensures r.chatHistory == s.chatHistory && r.userInput == s.userInput
    ensures r.response == Some("Error: " + errorMessage)
  {
    var errorText := "Error: " + errorMessage;
    ChatState(s.messages + [errorText], s.chatHistory, s.userInput, Some(errorText))
  }

  /**
   * `process_message`: no input leaves the state as it is; otherwise the
   * completion service is asked with the configured system message.
   */
  function ProcessMessage(config: ChatConfig, llm: Completion, s: ChatState): (r: ChatState)
    ensures !HasInput(s) ==> r == s
    ensures |s.messages| <= |r.messages| && r.messages[..|s.messages|] == s.messages
    ensures |s.chatHistory| <= |r.chatHistory| && r.chatHistory[..|s.chatHistory|] == s.chatHistory
  {
    if !HasInput(s) then s
    else
      var userInput := s.userInput.value;
      match llm(userInput, config.systemMessage)
      case Returned(responseText) => UpdateStateSuccess(s, userInput, responseText)
      case Raised(error) => UpdateStateError(s, error)
  }

  /** A successful call appends exactly "User: ..." then "Assistant: ..." and the two records, and clears the input. */
  lemma ProcessSuccess(config: ChatConfig, llm: Completion, s: ChatState, reply: string)
    requires HasInput(s) && llm(s.userInput.value, config.systemMessage) == Returned(reply)
    ensures ProcessMessage(config, llm, s).messages ==
              s.messages + ["User: " + s.userInput.value, "Assistant: " + reply]
    ensures ProcessMessage(config, llm, s).chatHistory ==
              s.chatHistory + [ChatMessage(UserRole, s.userInput.value), ChatMessage(AssistantRole, reply)]
    ensures ProcessMessage(config, llm, s).userInput == None
    ensures ProcessMessage(config, llm, s).response == Some(reply)
  {
  }

  /** A failing call appends only "Error: ..." and keeps history and pending input. */
  lemma ProcessError(config: ChatConfig, llm: Completion, s: ChatState, error: string)
    requires HasInput(s) && llm(s.userInput.value, config.systemMessage) == Raised(error)
    ensures ProcessMessage(config, llm, s).messages == s.messages + ["Error: " + error]
    ensures ProcessMessage(config, llm, s).chatHistory == s.chatHistory
    ensures ProcessMessage(config, llm, s).userInput == s.userInput
    ensures ProcessMessage(config, llm, s).response == Some("Error: " + error)
  {
  }

  /**
   * The two logs grow in lockstep: the difference of their lengths changes only
   * when the call fails, and then by one.
   */
  lemma LockstepGrowth(config: ChatConfig, llm: Completion, s: ChatState)
    ensures var r := ProcessMessage(config, llm, s);
            var failed := HasInput(s) && llm(s.userInput.value, config.systemMessage).Raised?;
            |r.messages| - |r.chatHistory| == |s.messages| - |s.chatHistory| + (if failed then 1 else 0)
    ensures var r := ProcessMessage(config, llm, s);
            HasInput(s) && llm(s.userInput.value, config.systemMessage).Returned? ==>
              |r.messages| == |s.messages| + 2 && |r.chatHistory| == |s.chatHistory| + 2
  {
  }

  /** The transcript line a history record stands for. */
  function Render(m: ChatMessage): string {
    (if m.kind == UserRole then "User: " else "Assistant: ") + m.content
  }

  function Transcribe(history: seq<ChatMessage>): (lines: seq<string>)
    ensures |lines| == |history|
  {
    if history == [] then [] else [Render(history[0])] + Transcribe(history[1..])
  }

  /** The transcript is exactly the rendering of the structured history. */
  predicate Mirrors(s: ChatState) {
    s.messages == Transcribe(s.chatHistory)
  }

  lemma {:induction false} TranscribeAppend(a: seq<ChatMessage>, b: seq<ChatMessage>)
    ensures Transcribe(a + b) == Transcribe(a) + Transcribe(b)
    decreases |a|
  {
    if a == [] {
      assert a + b == b;
    } else {
      assert (a + b)[1..] == a[1..] + b;
      TranscribeAppend(a[1..], b);
    }
  }

  /**
   * A successful turn keeps the transcript a rendering of the history; a failed
   * turn leaves the transcript exactly one line ahead of it.
   */
  lemma TurnKeepsMirror(config: ChatConfig, llm: Completion, s: ChatState)
    requires Mirrors(s)
    ensures var r := ProcessMessage(config, llm, s);
            if HasInput(s) && llm(s.userInput.value, config.systemMessage).Raised?
            then r.messages == Transcribe(r.chatHistory) + [r.response.value]
            else Mirrors(r)
  {
    var r := ProcessMessage(config, llm, s);
    if HasInput(s) {
      var u := s.userInput.value;
      match llm(u, config.systemMessage)
      case Returned(reply) =>
        var added := [ChatMessage(UserRole, u), ChatMessage(AssistantRole, reply)];
        TranscribeAppend(s.chatHistory, added);
        assert Transcribe(added) == ["User: " + u, "Assistant: " + reply] by {
          assert added[1..][1..] == [];
        }
      case Raised(_) =>
    }
  }

  /** The worked example: "Hello" answered with "Hi" on an empty state. */
  lemma HelloExample(config: ChatConfig, llm: Completion)
    requires llm("Hello", config.systemMessage) == Returned("Hi")
    ensures ProcessMessage(config, llm, ChatState([], [], Some("Hello"), None)).messages ==
              ["User: Hello", "Assistant: Hi"]
  {
    var s := ChatState([], [], Some("Hello"), None);
    assert HasInput(s);
    ProcessSuccess(config, llm, s, "Hi");
    assert "User: " + "Hello" == "User: Hello";
    assert "Assistant: " + "Hi" == "Assistant: Hi";
  }
}
