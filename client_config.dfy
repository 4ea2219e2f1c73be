/**
 * The client's configuration: fixed defaults, overridden field by field from the
 * environment, and a one-line rendering for the log. A `time.Duration` is a signed 64-bit
 * count of nanoseconds.
 */
module ClientConfig {
  import opened Wrappers
  import opened Strconv
  import opened Environment

  /** Nanoseconds in one second: Go's `time.Second`. */
  const Second: int := 1_000_000_000

  /** The largest whole number of seconds a `Duration` holds: MaxInt64 / Second, rounded down. */
  const MaxSeconds: int := 9_223_372_036

  datatype Config = Config(
    serverURL: string,
    agentCardPath: string,
    apiPath: string,
    timeout: int)  // nanoseconds

  datatype Field = ServerURL | AgentCardPath | APIPath | Timeout

  const ServerURLVar: string := "A2A_SERVER_URL"
  const AgentCardPathVar: string := "A2A_AGENT_CARD_PATH"
  const APIPathVar: string := "A2A_API_PATH"
  const TimeoutVar: string := "A2A_TIMEOUT_SECONDS"

  const AllVars: set<string> := {ServerURLVar, AgentCardPathVar, APIPathVar, TimeoutVar}

  /** The environment variable that overrides field `f`. */
  function VarOf(f: Field): string {
    match f
    case ServerURL => ServerURLVar
    case AgentCardPath => AgentCardPathVar
    case APIPath => APIPathVar
    case Timeout => TimeoutVar
  }

  /** Fields `f` of `c` and `d` are equal. */
  predicate SameField(c: Config, d: Config, f: Field) {
    match f
    case ServerURL => c.serverURL == d.serverURL
    case AgentCardPath => c.agentCardPath == d.agentCardPath
    case APIPath => c.apiPath == d.apiPath
    case Timeout => c.timeout == d.timeout
  }

  function DefaultConfig(): (c: Config)
    ensures c.serverURL == "http://localhost:8080" && c.agentCardPath == "card" && c.apiPath == "/api"
    ensures c.timeout == 30 * Second
  {
    Config("http://localhost:8080", "card", "/api", 30 * Second)
  }

  /**
   * `time.Duration(n) * time.Second`: `n` seconds in nanoseconds, with the wrap-around of
   * signed 64-bit multiplication.
   */
  function Seconds(n: int): (d: int)
    ensures InInt64(d)
    ensures -MaxSeconds <= n <= MaxSeconds ==> d == n * Second
  {
    Int64Wrap(n * Second)
  }

  /**
   * The timeout after the `A2A_TIMEOUT_SECONDS` step: `n` seconds when the variable is
   * non-empty and `Atoi` gives `n` (zero and negatives included), else `current`.
   */
  function TimeoutOverride(env: Env, current: int): (t: int)
    ensures Getenv(env, TimeoutVar) != "" && Atoi(Getenv(env, TimeoutVar)).Some? ==>
      t == Seconds(Atoi(Getenv(env, TimeoutVar)).value)
    ensures Getenv(env, TimeoutVar) == "" || Atoi(Getenv(env, TimeoutVar)).None? ==> t == current
  {
    var s := Getenv(env, TimeoutVar);
    if s != "" then
      match Atoi(s)
      case Some(n) => Seconds(n)
      case None => current
    else current
  }

  /**
   * What `LoadConfigFromEnv` computes: each field of the defaults overridden from its
   * variable. A field whose variable is unset or empty keeps its default, and the timeout
   * always fits a `Duration`.
   */
  function FromEnv(env: Env): (c: Config)
    ensures forall f :: Getenv(env, VarOf(f)) == "" ==> SameField(c, DefaultConfig(), f)
    ensures InInt64(c.timeout)
  {
    var d := DefaultConfig();
    Config(
      OverrideString(env, ServerURLVar, d.serverURL),
      OverrideString(env, AgentCardPathVar, d.agentCardPath),
      OverrideString(env, APIPathVar, d.apiPath),
      TimeoutOverride(env, d.timeout))
  }

  /**
   * `LoadConfigFromEnv`, with the environment passed in: start from the defaults and
   * assign each field whose variable supplies a value.
   */
  method LoadConfigFromEnv(env: Env) returns (config: Config)
    ensures config == FromEnv(env)
  {
    config := DefaultConfig();
    var serverURL := Getenv(env, ServerURLVar);
    if serverURL != "" {
      config := config.(serverURL := serverURL);
    }
    var agentCardPath := Getenv(env, AgentCardPathVar);
    if agentCardPath != "" {
      config := config.(agentCardPath := agentCardPath);
    }
    var apiPath := Getenv(env, APIPathVar);
    if apiPath != "" {
      config := config.(apiPath := apiPath);
    }
    var timeoutStr := Getenv(env, TimeoutVar);
    if timeoutStr != "" {
      var timeout := Atoi(timeoutStr);
      if timeout.Some? {
        config := config.(timeout := Seconds(timeout.value));
      }
    }
  }

  /** With every variable unset or empty, the loaded configuration is the default one. */
  lemma LoadWithEmptyEnv(env: Env)
    requires AllEmpty(env, AllVars)
    ensures FromEnv(env) == DefaultConfig()
  {
  }

  /** Each string field is its variable's value exactly when that value is non-empty. */
  lemma LoadedStrings(env: Env)
    ensures var s := Getenv(env, ServerURLVar);
      FromEnv(env).serverURL == if s != "" then s else "http://localhost:8080"
    ensures var s := Getenv(env, AgentCardPathVar); FromEnv(env).agentCardPath == if s != "" then s else "card"
    ensures var s := Getenv(env, APIPathVar); FromEnv(env).apiPath == if s != "" then s else "/api"
  {
  }

  /**
   * The timeout is `n` seconds for a non-empty `A2A_TIMEOUT_SECONDS` that `Atoi` parses to
   * `n`, with no sign or range check; otherwise 30 seconds.
   */
  lemma LoadedTimeout(env: Env)
    ensures var s := Getenv(env, TimeoutVar);
      FromEnv(env).timeout == if s != "" && Atoi(s).Some? then Seconds(Atoi(s).value) else 30 * Second
  {
  }

  /** For any count of seconds that fits a `Duration`, the timeout is exactly that many seconds. */
  lemma LoadedTimeoutExact(env: Env, n: int)
    requires Getenv(env, TimeoutVar) == Itoa(n)
    requires -MaxSeconds <= n <= MaxSeconds
    ensures FromEnv(env).timeout == n * Second
  {
    AtoiOfItoa(n);
    assert Itoa(n) != "";
  }

  /** One second more than a `Duration` can hold wraps round to a negative timeout. */
  lemma LoadedTimeoutWraps(env: Env)
    requires Getenv(env, TimeoutVar) == Itoa(MaxSeconds + 1)
    ensures FromEnv(env).timeout == (MaxSeconds + 1) * Second - TwoTo64 < 0
  {
    AtoiOfItoa(MaxSeconds + 1);
    assert Itoa(MaxSeconds + 1) != "";
  }

  /** Setting one field's variable to anything leaves every other loaded field as it was. */
  lemma OnlyOwnField(env: Env, f: Field, g: Field, value: string)
    requires g != f
    ensures SameField(FromEnv(env[VarOf(f) := value]), FromEnv(env), g)
  {
  }

  /**
   * `(*Config).String`: the four fields under fixed labels, in a fixed order. How a
   * `Duration` is written (`time.Duration.String`) is not part of this model and is passed in.
   */
  function String(c: Config, durationText: int -> string): (s: string)
    ensures "ServerURL: " + c.serverURL + ", AgentCardPath: " <= s
    ensures var t := ", Timeout: " + durationText(c.timeout); |t| <= |s| && s[|s| - |t|..] == t
  {
    "ServerURL: " + c.serverURL + ", AgentCardPath: " + c.agentCardPath + ", APIPath: " + c.apiPath
      + ", Timeout: " + durationText(c.timeout)
  }

  /** The rendering of the sample configuration used by the client's own tests. */
  lemma StringSample(durationText: int -> string)
    requires durationText(60 * Second) == "1m0s"
    ensures String(Config("http://test:8080", "test-card", "/test-api", 60 * Second), durationText)
      == "ServerURL: http://test:8080, AgentCardPath: test-card, APIPath: /test-api, Timeout: 1m0s"
  {
    SampleJoins1();
    SampleJoins2("ServerURL: http://test:8080, AgentCardPath: test-card");
  }

  // The two lemmas below each equate one left-to-right chunk of the sample rendering;
  // equating the whole literal in a single proof is too costly for the solver.

  lemma SampleJoins1()
    ensures "ServerURL: " + "http://test:8080" + ", AgentCardPath: " + "test-card"
      == "ServerURL: http://test:8080, AgentCardPath: test-card"
  {
  }

  lemma SampleJoins2(p: string)
    requires p == "ServerURL: http://test:8080, AgentCardPath: test-card"
    ensures p + ", APIPath: " + "/test-api" + ", Timeout: " + "1m0s"
      == "ServerURL: http://test:8080, AgentCardPath: test-card, APIPath: /test-api, Timeout: 1m0s"
  {
  }
}
