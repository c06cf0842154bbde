/** The chat graph's node and router (src/chat/workflow.py); graph construction is not modelled. */
module Workflow {
  import opened Wrappers
  import opened Text
  import opened ChatModels
  import opened Configuration
  import opened MessageHandling

  /** Inputs that end the conversation, compared after lower-casing. */
  const QuitWords: seq<string> := ["quit", "exit", "bye"]

  /** `a` and `b` spell the same word up to letter case. */
  predicate SameIgnoringCase(a: string, b: string) {
    |a| == |b| && forall i :: 0 <= i < |a| ==> LowerChar(a[i]) == LowerChar(b[i])
  }

  /** A word lower-cases to a quit word exactly when it is a quit word in some letter case. */
  lemma LowersToQuitWord(w: string)
    ensures LowerAscii(w) in QuitWords <==> exists q :: q in QuitWords && SameIgnoringCase(w, q)
  {
    if LowerAscii(w) in QuitWords {
      var q := LowerAscii(w);
      forall i | 0 <= i < |q| ensures LowerChar(q[i]) == q[i] {
        assert q == "quit" || q == "exit" || q == "bye";
      }
      assert SameIgnoringCase(w, q);
    }
    if q :| q in QuitWords && SameIgnoringCase(w, q) {
      assert LowerAscii(w) == q by {
        forall i | 0 <= i < |q| ensures q[i] == LowerChar(q[i]) {
          assert q == "quit" || q == "exit" || q == "bye";
        }
      }
    }
  }

  /** `_should_continue`: keep going on a non-empty input that is not a quit word in any letter case. */
  function ShouldContinue(s: ChatState): (r: Route)
    ensures r == Continue <==>
              Truthy(s.userInput) && forall q :: q in QuitWords ==> !SameIgnoringCase(s.userInput.value, q)
  {
    if s.userInput.Some? then
      LowersToQuitWord(s.userInput.value);
      if s.userInput.value != "" && LowerAscii(s.userInput.value) !in QuitWords then Continue else End
    else End
  }

  /** `_chat_node`: hands the state to the message handler unchanged. */
  function ChatNode(config: ChatConfig, llm: Completion, s: ChatState): (r: ChatState)
    ensures r == ProcessMessage(config, llm, s)
  {
    ProcessMessage(config, llm, s)
  }

  /** Two inputs that agree once lower-cased get the same decision. */
  lemma CaseInsensitive(s: ChatState, a: string, b: string)
    requires LowerAscii(a) == LowerAscii(b)
    ensures ShouldContinue(s.(userInput := Some(a))) == ShouldContinue(s.(userInput := Some(b)))
  {
    assert |a| == |LowerAscii(a)| == |LowerAscii(b)| == |b|;
  }

  /** Any spelling of quit, exit or bye, in any letter case, ends the conversation. */
  lemma QuitWordEnds(s: ChatState, word: string, quit: string)
    requires quit in QuitWords && SameIgnoringCase(word, quit)
    ensures ShouldContinue(s.(userInput := Some(word))) == End
  {
  }

  /** No input and empty input end. */
  lemma NoInputEnds(s: ChatState)
    ensures ShouldContinue(s.(userInput := None)) == End
    ensures ShouldContinue(s.(userInput := Some(""))) == End
  {
  }

  /** Ordinary input such as "Hello" continues. */
  lemma HelloContinues(s: ChatState)
    ensures ShouldContinue(s.(userInput := Some("Hello"))) == Continue
  {
    assert |LowerAscii("Hello")| == 5;
    assert forall q :: q in QuitWords ==> |q| < 5;
    assert LowerAscii("Hello") !in QuitWords;
  }

  /** QUIT, Exit and BYE end. */
  lemma CapitalisedQuitWordsEnd(s: ChatState)
    ensures ShouldContinue(s.(userInput := Some("QUIT"))) == End
    ensures ShouldContinue(s.(userInput := Some("Exit"))) == End
    ensures ShouldContinue(s.(userInput := Some("BYE"))) == End
  {
    QuitWordEnds(s, "QUIT", "quit");
    QuitWordEnds(s, "Exit", "exit");
    QuitWordEnds(s, "BYE", "bye");
  }

  /** After a successful turn the input is consumed, so the router ends the run. */
  lemma SuccessfulTurnEnds(config: ChatConfig, llm: Completion, s: ChatState)
    requires HasInput(s) && llm(s.userInput.value, config.systemMessage).Returned?
    ensures ShouldContinue(ChatNode(config, llm, s)) == End
  {
  }

  /**
   * After a failed turn the same input is still pending, so unless it is a quit
   * word the router sends the state back to the chat node, which calls the service again.
   */
  lemma FailedTurnRepeats(config: ChatConfig, llm: Completion, s: ChatState)
    requires HasInput(s) && llm(s.userInput.value, config.systemMessage).Raised?
    ensures ChatNode(config, llm, s).userInput == s.userInput
    ensures ShouldContinue(ChatNode(config, llm, s)) == ShouldContinue(s)
    ensures LowerAscii(s.userInput.value) !in QuitWords ==> ShouldContinue(ChatNode(config, llm, s)) == Continue
  {
  }
}
