/** Status, the generic result record and the validated configuration (src/agent_test/models.py). */
module AgentModels {
  import opened Wrappers
  import opened Text

  datatype Status = Pending | Running | Completed | Failed {
    /** The enumeration's string value. */
    function Value(): (v: string)
      ensures this == Pending <==> v == "pending"
      ensures this == Running <==> v == "running"
      ensures this == Completed <==> v == "completed"
      ensures this == Failed <==> v == "failed"
    {
      match this
      case Pending => "pending"
      case Running => "running"
      case Completed => "completed"
      case Failed => "failed"
    }
  }

  /** Distinct members have distinct values. */
  lemma StatusValueInjective(a: Status, b: Status)
    requires a.Value() == b.Value()
    ensures a == b
  {
  }

  /** The frozen result record: a value, a status and an optional message. */
  datatype Result<T> = Result(value: T, status: Status, message: Option<string>) {

    /** `is_success`: true for COMPLETED and for no other status. */
    predicate IsSuccess()
      ensures IsSuccess() <==> status.Value() == "completed"
    {
      status == Completed
    }

    /**
     * `map`: a successful result gets `f` applied to its value; any other keeps its
     * status and message and carries None as its value.
     */
    function Map<U>(f: T -> U): (r: Result<Option<U>>)
      ensures r.status == status && r.message == message
      ensures r.IsSuccess() <==> IsSuccess()
      ensures r.value.Some? <==> IsSuccess()
      ensures IsSuccess() ==> r.value.value == f(value)
    {
      if IsSuccess() then Result(Some(f(value)), status, message) else Result(None, status, message)
    }
  }

  /** Only COMPLETED counts as success. */
  lemma IsSuccessOnlyCompleted<T>(v: T, message: Option<string>)
    ensures Result(v, Completed, message).IsSuccess()
    ensures !Result(v, Pending, message).IsSuccess()
    ensures !Result(v, Running, message).IsSuccess()
    ensures !Result(v, Failed, message).IsSuccess()
  {
  }

  /** The configuration record; `metadata` is a string map standing in for a dict of arbitrary values. */
  datatype Config = Config(
    name: string,
    maxRetries: int,
    timeoutSeconds: real,
    debugMode: bool,
    metadata: Option<map<string, string>>)

  const DefaultMaxRetries := 3
  const DefaultTimeoutSeconds := 30.0
  const DefaultDebugMode := false

  const RetriesError := "max_retries must be non-negative"
  const TimeoutError := "timeout_seconds must be positive"
  const NameError := "name cannot be empty"

  /**
   * Construction followed by `__post_init__`: the retries check, then the timeout
   * check, then the name check; the first that fails raises ValueError.
   */
  function NewConfig(name: string, maxRetries: int, timeoutSeconds: real, debugMode: bool,
                     metadata: Option<map<string, string>>): (r: Outcome<Config>)
    ensures maxRetries < 0 ==> r == Raised(RetriesError)
    ensures maxRetries >= 0 && timeoutSeconds <= 0.0 ==> r == Raised(TimeoutError)
    ensures maxRetries >= 0 && timeoutSeconds > 0.0 && IsBlank(name) ==> r == Raised(NameError)
    ensures r.Returned? <==> maxRetries >= 0 && timeoutSeconds > 0.0 && !IsBlank(name)
    ensures r.Returned? ==> r.value == Config(name, maxRetries, timeoutSeconds, debugMode, metadata)
  {
    StripEmptyIffBlank(name);
    if maxRetries < 0 then Raised(RetriesError)
    else if timeoutSeconds <= 0.0 then Raised(TimeoutError)
    else if Strip(name) == "" then Raised(NameError)
    else Returned(Config(name, maxRetries, timeoutSeconds, debugMode, metadata))
  }

  /** `Config(name)`: every other field takes its default. */
  function ConfigWithDefaults(name: string): (r: Outcome<Config>)
    ensures r.Returned? <==> !IsBlank(name)
    ensures r.Returned? ==> r.value.maxRetries == 3 && r.value.timeoutSeconds == 30.0 &&
                            !r.value.debugMode && r.value.metadata == None && r.value.name == name
  {
    NewConfig(name, DefaultMaxRetries, DefaultTimeoutSeconds, DefaultDebugMode, None)
  }

  /** The cases the module's own checks name: -1 retries, a zero timeout, a blank name. */
  lemma ConfigExamples()
    ensures NewConfig("test", -1, DefaultTimeoutSeconds, false, None) == Raised(RetriesError)
    ensures NewConfig("test", DefaultMaxRetries, 0.0, false, None) == Raised(TimeoutError)
    ensures ConfigWithDefaults("   ") == Raised(NameError)
    ensures ConfigWithDefaults("test-config") == Returned(Config("test-config", 3, 30.0, false, None))
  {
    assert IsBlank("   ");
    assert !IsSpace("test-config"[0]);
  }
}
