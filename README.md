# chat-agent, modelled in Dafny

A model of the deterministic core of a small conversational agent built on a graph
orchestration library and a hosted chat-completion service:

- the **turn processor** of the chat package (`MessageHandler.process_message` and its two
  state-update helpers): a function from session state to session state, with the
  completion service passed in as a function `(user input, system message) -> Returned(reply) | Raised(error)`;
- the chat graph's **node and router** (`ChatWorkflow._chat_node`, `_should_continue`);
- the **chat configuration**: defaults, the API-key priority rule over the environment
  (passed in as a `map<string, string>`) and `validate`;
- the older single-file **chat agent** (`chat_node`, `should_continue_chat`), whose node
  appends to the caller's own lists: those lists are `SharedList` objects held by reference
  in the state, and the node is a method that modifies them;
- the **task-reasoning agent** (`reasoning_node`, `should_continue`), also in place, including
  the case where the message list and the completed-task list are the same object;
- the agent-test **models** (`Status`, `Result.is_success`, `Result.map`, `Config` with its
  ordered validation) and **utilities** (`get_first`, `process_items`, and `TypedCache`, a
  dict bounded by `max_size` that evicts the earliest-inserted key).

Python exceptions are modelled as `Outcome.Raised(message)`; Python `None` as `Option.None`;
the routers' "continue"/"end" strings as `Route`. Value semantics of Dafny datatypes give
the message handler's "copy, then extend" behaviour: the caller's state cannot change.

Files: `wrappers.dfy` (Option, Outcome, Route, truthiness; the shared list class),
`text.dfy` (ASCII `lower` and `strip`), `chat_models.dfy`, `configuration.dfy`,
`message_handler.dfy`, `workflow.dfy`, `chat_agent.dfy`, `simple_agent.dfy`,
`agent_models.dfy`, `agent_utils.dfy`.

Notable behaviour the model makes explicit:

- `api_key` is `getenv(OPENROUTER_API_KEY) or getenv(OPENAI_API_KEY)`: an empty OpenRouter
  value falls through, and when only an empty OpenAI value is set the key is `""`, not `None`.
- After a failed turn the pending input is kept, so the chat router answers "continue" and
  the graph calls the service again with the same input (`Workflow.FailedTurnRepeats`).
- A current task that is already completed is never cleared, so the task agent's router keeps
  answering "continue" on an unchanged state (`SimpleAgent.CompletedTaskStalls`).
- A `TypedCache` created with `max_size <= 0` raises StopIteration on every `set` (the
  eviction asks the still-empty dict for its first key), so it never holds an entry.
- The legacy chat node, once a key is present, does what the message handler does with that
  node's own system message (`ChatAgent.ChatNode`), with both completion calls abstracted as
  the same function `(user input, system message) -> outcome`.

## Model

| member | source | states |
|---|---|---|
| Configuration.ApiKey | src/chat/config.py:23-26 | the OpenRouter value when set and non-empty; otherwise whatever the OpenAI lookup gives (None when unset); truthy exactly when one of the two is non-empty |
| Configuration.Validate | src/chat/config.py:28-32 | raises with "OPENROUTER_API_KEY or OPENAI_API_KEY environment variable not set" exactly when the key is falsy; returns exactly when one of the two values is non-empty |
| Configuration.ApiKeyExamples | tests/unit/chat/test_config.py:49-88 | both set gives the OpenRouter key; only OpenAI gives it; neither gives None and validation raises |
| MessageHandling.UpdateStateSuccess | src/chat/message_handler.py:32-52 | transcript is the old one plus "User: input" then "Assistant: reply"; history is the old one plus the user and assistant records; input None; response the reply |
| MessageHandling.UpdateStateError | src/chat/message_handler.py:54-65 | transcript is the old one plus exactly "Error: msg"; history and pending input carried over; response "Error: msg" |
| MessageHandling.ProcessMessage | src/chat/message_handler.py:18-30 | identity when the input is None or empty; both logs only ever extended (the old ones are prefixes) |
| MessageHandling.ProcessSuccess | src/chat/message_handler.py:18-52 | with input and a reply: exactly two transcript lines and two records appended, user first; input cleared; response the reply |
| MessageHandling.ProcessError | src/chat/message_handler.py:18-65 | with input and a raised error: one "Error: " line appended; history and pending input unchanged; response the error line |
| MessageHandling.LockstepGrowth | src/chat/message_handler.py:36-58 | the length difference of the two logs is unchanged except after a failure, when it grows by one; success adds two to each |
| MessageHandling.TurnKeepsMirror | src/chat/message_handler.py:36-58 | if the transcript is the rendering of the history, a successful turn keeps it so and a failed turn leaves exactly the error line extra |
| MessageHandling.HelloExample | src/chat/message_handler.py:36-45 | "Hello" answered with "Hi" on an empty state gives ["User: Hello", "Assistant: Hi"] |
| Workflow.ShouldContinue | src/chat/workflow.py:45-50 | continue exactly when the input is present, non-empty and not quit, exit or bye in any letter case; end otherwise |
| Workflow.LowersToQuitWord | src/chat/workflow.py:48 | an input lower-cases to a quit word exactly when it spells one in some letter case |
| Workflow.ChatNode | src/chat/workflow.py:41-43 | the node's result is the message handler's result on the same state |
| Workflow.CaseInsensitive | src/chat/workflow.py:45-50 | inputs equal after lower-casing get the same routing decision |
| Workflow.QuitWordEnds | src/chat/workflow.py:48-50 | quit, exit or bye in any letter case routes to end |
| Workflow.NoInputEnds | tests/unit/chat/test_workflow.py:116-146 | None and "" end |
| Workflow.HelloContinues | tests/unit/chat/test_workflow.py:79-92 | "Hello" continues |
| Workflow.CapitalisedQuitWordsEnd | tests/unit/chat/test_workflow.py:96-112 | QUIT, Exit and BYE end |
| Workflow.SuccessfulTurnEnds | src/chat/workflow.py:35-50 | after a successful turn the router says end |
| Workflow.FailedTurnRepeats | src/chat/workflow.py:35-50 | after a failed turn the input is still pending and, unless it is a quit word, the router says continue |
| ChatAgent.ChatNode | src/chat_agent.py:19-82 | no key: one missing-key error line appended to the caller's list even without input, response set, history and input untouched; key and no input: state and lists unchanged; key: contents equal the message handler's result with this node's system message; returned lists are the caller's objects |
| ChatAgent.ShouldContinueChat | src/chat_agent.py:85-90 | continue exactly when the input is present, non-empty and not quit, exit or bye in any letter case |
| ChatAgent.RoutersAgree | src/chat_agent.py:85-90 | `should_continue_chat` decides as the chat package's router does for the same input |
| SimpleAgent.ReasoningNode | src/simple_agent.py:11-31 | a pending task appends "Processing task: t" and t to the caller's lists (both to one list, message first, when they are the same object) and clears the task; otherwise the state and lists are unchanged |
| SimpleAgent.ShouldContinue | src/simple_agent.py:34-38 | continue exactly when the current task is non-empty |
| SimpleAgent.StepIdempotent | src/simple_agent.py:17-31 | two reasoning steps give what one gives |
| SimpleAgent.StepGrowsByAtMostOne | src/simple_agent.py:17-31 | for two distinct lists, each step extends messages and completed tasks by at most one each, keeping the old entries (one shared list grows by two, see ReasoningNode) |
| SimpleAgent.ProcessedStepEnds | src/simple_agent.py:17-38 | after a step that processed a task the router says end |
| SimpleAgent.CompletedTaskStalls | src/simple_agent.py:17-38 | a non-empty task already completed leaves the state unchanged and the router says continue |
| SimpleAgent.StepKeepsCompletedDistinct | src/simple_agent.py:17-23 | a completed list without repeats stays without repeats |
| AgentModels.Status.Value | src/agent_test/models.py:14-20 | PENDING is "pending", RUNNING "running", COMPLETED "completed", FAILED "failed", each in both directions |
| AgentModels.StatusValueInjective | src/agent_test/models.py:14-20 | distinct statuses have distinct values |
| AgentModels.Result.IsSuccess | src/agent_test/models.py:31-33 | success exactly when the status's value is "completed" |
| AgentModels.IsSuccessOnlyCompleted | src/agent_test/models.py:31-33 | only COMPLETED is success |
| AgentModels.Result.Map | src/agent_test/models.py:35-39 | status and message kept; success applies the function to the value; otherwise the value is None |
| AgentModels.NewConfig | src/agent_test/models.py:54-71 | raises the retries error when retries < 0, else the timeout error when timeout <= 0, else the name error when the name is blank; otherwise the record with the given fields |
| AgentModels.ConfigWithDefaults | src/agent_test/models.py:58-62 | a non-blank name gives retries 3, timeout 30.0, debug false, metadata None |
| AgentModels.ConfigExamples | tests/test_models.py:36-56 | -1 retries, zero timeout and a blank name raise their messages; "test-config" gets the defaults |
| Text.LowerAscii | src/chat/workflow.py:48 | same length, each ASCII capital replaced by its small letter, other characters kept |
| Text.StripEmptyIffBlank | src/agent_test/models.py:70-71 | the stripped name is empty exactly when every character is white space |
| AgentUtils.GetFirst | src/agent_test/utils.py:34-36 | the first item when there is one, otherwise the default (None when none is given) |
| AgentUtils.GetFirstConcat | src/agent_test/utils.py:34-36 | the first item of a concatenation is the left part's, falling back to the right part's, then the default |
| AgentUtils.ProcessItems | src/agent_test/utils.py:80-94 | never longer than the input; with no filter, the processor applied to every item in place |
| AgentUtils.ProcessItemsConcat | src/agent_test/utils.py:94 | processing a concatenation is processing each part, in order |
| AgentUtils.ProcessItemsSingle | src/agent_test/utils.py:87-94 | one item gives its processed value when kept and nothing otherwise |
| AgentUtils.ProcessItemsMembers | src/agent_test/utils.py:94 | every output comes from a kept item and every kept item's output appears |
| AgentUtils.ProcessItemsCons | src/agent_test/utils.py:94 | the output for an item followed by more items is that item's contribution followed by theirs |
| AgentUtils.ProcessItemsNoFilterExample | tests/test_utils.py:49-54 | doubling [1,2,3,4] with no filter gives [2,4,6,8] |
| AgentUtils.ProcessItemsFilterExample | tests/test_utils.py:57-66 | doubling the even items of [1,2,3,4,5] gives [4,8] |
| AgentUtils.Entries.Get | src/agent_test/utils.py:104-106 | the stored value when the key is present, None otherwise |
| AgentUtils.Put | src/agent_test/utils.py:108-115 | raises StopIteration exactly when max_size <= 0 and the cache is empty; otherwise keeps the keys distinct and matching the table, the key then reads as the value, and a new key is last in the insertion order |
| AgentUtils.EvictOldest | src/agent_test/utils.py:111-113 | removes the earliest-inserted key from the order and the table, keeping the invariant |
| AgentUtils.PutBounded | src/agent_test/utils.py:110-115 | with max_size >= 1 a cache within its bound stays within it |
| AgentUtils.PutEvictsOldest | src/agent_test/utils.py:110-115 | a new key into a full cache removes exactly the earliest-inserted key, appends the new key and keeps every other entry |
| AgentUtils.PutUpdateKeepsOrder | src/agent_test/utils.py:110-115 | updating a present key never evicts and keeps the insertion order |
| AgentUtils.PutBelowBoundKeepsAll | src/agent_test/utils.py:110-115 | below the bound nothing is evicted, and a new key is appended at the back of the insertion order |
| AgentUtils.CapacityTwoScenario | tests/test_utils.py:69-86 | capacity 2, keys 1, 2, 3 set: key1 gone, key2 and key3 kept; a missing key reads None |
| AgentUtils.TypedCache.constructor | src/agent_test/utils.py:100-102 | an empty cache with the given bound |
| AgentUtils.TypedCache.Get | src/agent_test/utils.py:104-106 | None exactly for keys not present (never set, evicted or cleared), else the stored value |
| AgentUtils.TypedCache.Set | src/agent_test/utils.py:108-115 | the new contents are Put's, the invariant is kept, and a raise changes nothing |
| AgentUtils.TypedCache.Clear | src/agent_test/utils.py:117-119 | empty afterwards; every key reads None |

## Left out

- The completion client (`OpenRouterClient`, the `ChatOpenAI` construction and call, `_extract_content`): a wrapper over a library that is not part of this model; only its outcome, a reply or a raised error, is a parameter.
- Graph construction and execution (`create_graph`, `create_chat_agent`, `create_simple_agent`, `compile`, `invoke`): the execution semantics belong to an external library; only the node and router functions are modelled.
- Console loops and printing (`src/cli/chat_runner.py`, `run_chat_example`, `run_agent_example`, `main.py`): I/O.
- `ChatAgent.ChatNode`: the legacy node builds its own `ChatOpenAI` client and stores the raw `response.content`, while the handler's client normalises non-string content first (src/chat/llm_client.py:53-59); both calls are the same abstract completion function here, so that difference (for example list content) is not modelled.
- `load_dotenv` and the real `os.getenv`: the environment is a map parameter.
- `safe_divide` (floating-point division), `retry_async` and `managed_resource` (async, sleeping, event-loop clock).
- The `Processor` protocol (declarations only) and the `temperature` fields (float constants).
- `Text.LowerAscii`: lower-cases ASCII letters only, where Python's `str.lower` is Unicode-wide.
- `Text.StripEmptyIffBlank`: white space is the ASCII set Python's `str.isspace` accepts; Unicode white space is not modelled.
- `AgentModels.Result.Map`: the None value on a non-success is modelled as `Option.None`, so the mapped value is `Option<U>` rather than Python's untyped `U | None`; `Config.metadata` is a string map instead of a dict of arbitrary values, and `timeout_seconds` is a real.
- States whose keys are missing (`state.get(key, [])` falling back to a fresh list) are not modelled: every state record has all its fields.
- `TypedCache` keeps the dict's insertion order as a sequence of keys beside a map; `DefaultMaxSize` records the default bound of 100.
