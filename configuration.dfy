/** Chat configuration and API-key selection (src/chat/config.py). */
module Configuration {
  import opened Wrappers

  /** The frozen configuration record; `temperature` is a float constant and is not modelled. */
  datatype ChatConfig = ChatConfig(model: string, baseUrl: string, systemMessage: string)

  const DefaultChatConfig := ChatConfig(
    "openai/gpt-5-mini",
    "https://openrouter.ai/api/v1",
    "You are a helpful assistant. Keep responses concise.")

  const OpenRouterKeyName := "OPENROUTER_API_KEY"
  const OpenAIKeyName := "OPENAI_API_KEY"
  const MissingKeyMessage := "OPENROUTER_API_KEY or OPENAI_API_KEY environment variable not set"

  /** The process environment, as `os.getenv` sees it. */
  type Environment = map<string, string>

  function GetEnv(env: Environment, name: string): Option<string> {
    if name in env then Some(env[name]) else None
  }

  /**
   * `getenv(OPENROUTER_API_KEY) or getenv(OPENAI_API_KEY)`: the first value when it is
   * set and non-empty, otherwise whatever the second lookup gives (possibly "" or None).
   */
  function ApiKey(env: Environment): (r: Option<string>)
    ensures OpenRouterKeyName in env && env[OpenRouterKeyName] != "" ==> r == Some(env[OpenRouterKeyName])
    ensures OpenRouterKeyName !in env || env[OpenRouterKeyName] == "" ==>
              (OpenAIKeyName in env ==> r == Some(env[OpenAIKeyName])) &&
              (OpenAIKeyName !in env ==> r == None)
    ensures Truthy(r) <==>
              (OpenRouterKeyName in env && env[OpenRouterKeyName] != "") ||
              (OpenAIKeyName in env && env[OpenAIKeyName] != "")
  {
    var primary := GetEnv(env, OpenRouterKeyName);
    if Truthy(primary) then primary else GetEnv(env, OpenAIKeyName)
  }

  /** `validate()`: raises ValueError with the fixed message exactly when no usable key is found. */
  function Validate(env: Environment): (r: Outcome<()>)
    ensures r.Raised? <==> !Truthy(ApiKey(env))
    ensures r.Raised? ==> r.error == MissingKeyMessage
    ensures r.Returned? <==>
              (OpenRouterKeyName in env && env[OpenRouterKeyName] != "") ||
              (OpenAIKeyName in env && env[OpenAIKeyName] != "")
  {
    if !Truthy(ApiKey(env)) then Raised(MissingKeyMessage) else Returned(())
  }

  /** Both keys set: the OpenRouter one wins; neither set: no key at all. */
  lemma ApiKeyExamples()
    ensures ApiKey(map[OpenRouterKeyName := "openrouter_key", OpenAIKeyName := "openai_key"]) == Some("openrouter_key")
    ensures ApiKey(map[OpenAIKeyName := "test_openai_key"]) == Some("test_openai_key")
    ensures ApiKey(map[]) == None
    ensures Validate(map[]) == Raised(MissingKeyMessage)
  {
  }
}
