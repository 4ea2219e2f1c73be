/**
 * The server's configuration: fixed defaults, overridden field by field from the
 * environment, and a one-line rendering for the log.
 */
module ServerConfig {
  import opened Wrappers
  import opened Strconv
  import opened Environment

  datatype Config = Config(
    port: int,
    cardPath: string,
    apiPath: string,
    agentName: string,
    agentDesc: string,
    agentVersion: string)

  /** The configuration fields, in the order `LoadConfigFromEnv` examines their variables. */
  datatype Field = Port | CardPath | APIPath | AgentName | AgentDesc | AgentVersion

  const PortVar: string := "A2A_SERVER_PORT"
  const CardPathVar: string := "A2A_CARD_PATH"
  const APIPathVar: string := "A2A_API_PATH"
  const AgentNameVar: string := "A2A_AGENT_NAME"
  const AgentDescVar: string := "A2A_AGENT_DESC"
  const AgentVersionVar: string := "A2A_AGENT_VERSION"

  /** The environment variable that overrides field `f`. */
  function VarOf(f: Field): string {
    match f
    case Port => PortVar
    case CardPath => CardPathVar
    case APIPath => APIPathVar
    case AgentName => AgentNameVar
    case AgentDesc => AgentDescVar
    case AgentVersion => AgentVersionVar
  }

  const AllFields: set<Field> := {Port, CardPath, APIPath, AgentName, AgentDesc, AgentVersion}

  const AllVars: set<string> := {PortVar, CardPathVar, APIPathVar, AgentNameVar, AgentDescVar, AgentVersionVar}

  function DefaultConfig(): (c: Config)
    ensures c.port == 8080 && c.cardPath == "/card" && c.apiPath == "/api"
    ensures c.agentName == "Print Agent" && c.agentVersion == "v0.1.0"
    ensures c.agentDesc == "A simple print agent for A2A Go SDK demonstration"
  {
    Config(8080, "/card", "/api", "Print Agent", "A simple print agent for A2A Go SDK demonstration", "v0.1.0")
  }

  /**
   * The port after the `A2A_SERVER_PORT` step: the parsed value when the variable is
   * non-empty and `Atoi` accepts it (any value, zero and negatives included), else `current`.
   */
  function PortOverride(env: Env, current: int): (p: int)
    ensures Getenv(env, PortVar) != "" && Atoi(Getenv(env, PortVar)).Some? ==> p == Atoi(Getenv(env, PortVar)).value
    ensures Getenv(env, PortVar) == "" || Atoi(Getenv(env, PortVar)).None? ==> p == current
  {
    var s := Getenv(env, PortVar);
    if s != "" then
      match Atoi(s)
      case Some(n) => n
      case None => current
    else current
  }

  /** Fields `f` of `c` and `d` are equal. */
  predicate SameField(c: Config, d: Config, f: Field) {
    match f
    case Port => c.port == d.port
    case CardPath => c.cardPath == d.cardPath
    case APIPath => c.apiPath == d.apiPath
    case AgentName => c.agentName == d.agentName
    case AgentDesc => c.agentDesc == d.agentDesc
    case AgentVersion => c.agentVersion == d.agentVersion
  }

  /** One `if` of `LoadConfigFromEnv`: the override of field `f`, which writes no other field. */
  function Step(c: Config, env: Env, f: Field): (r: Config)
    ensures forall g :: g != f ==> SameField(r, c, g)
  {
    match f
    case Port => c.(port := PortOverride(env, c.port))
    case CardPath => c.(cardPath := OverrideString(env, CardPathVar, c.cardPath))
    case APIPath => c.(apiPath := OverrideString(env, APIPathVar, c.apiPath))
    case AgentName => c.(agentName := OverrideString(env, AgentNameVar, c.agentName))
    case AgentDesc => c.(agentDesc := OverrideString(env, AgentDescVar, c.agentDesc))
    case AgentVersion => c.(agentVersion := OverrideString(env, AgentVersionVar, c.agentVersion))
  }

  /** The overrides of `fs`, applied one after the other, first to last. */
  function Steps(c: Config, env: Env, fs: seq<Field>): Config {
    if |fs| == 0 then c else Step(Steps(c, env, fs[..|fs| - 1]), env, fs[|fs| - 1])
  }

  /** `c` with exactly the fields in `fields` overridden from `env`. */
  function Overridden(c: Config, env: Env, fields: set<Field>): Config {
    Config(
      if Port in fields then PortOverride(env, c.port) else c.port,
      if CardPath in fields then OverrideString(env, CardPathVar, c.cardPath) else c.cardPath,
      if APIPath in fields then OverrideString(env, APIPathVar, c.apiPath) else c.apiPath,
      if AgentName in fields then OverrideString(env, AgentNameVar, c.agentName) else c.agentName,
      if AgentDesc in fields then OverrideString(env, AgentDescVar, c.agentDesc) else c.agentDesc,
      if AgentVersion in fields then OverrideString(env, AgentVersionVar, c.agentVersion) else c.agentVersion)
  }

  /** The order in which the source examines the variables. */
  const SourceOrder: seq<Field> := [Port, CardPath, APIPath, AgentName, AgentDesc, AgentVersion]

  /**
   * What `LoadConfigFromEnv` computes: the defaults, then every override in source order;
   * that is, every field of the defaults overridden from its own variable.
   */
  function FromEnv(env: Env): (c: Config)
    ensures c == Overridden(DefaultConfig(), env, AllFields)
  {
    SourceOrderFieldwise(DefaultConfig(), env);
    Steps(DefaultConfig(), env, SourceOrder)
  }

  /**
   * Applying any sequence of overrides is the same as overriding the set of fields it
   * mentions: each override reads only its own field and variable, and repeating it changes
   * nothing.
   */
  lemma {:induction false} StepsFieldwise(c: Config, env: Env, fs: seq<Field>)
    ensures Steps(c, env, fs) == Overridden(c, env, set f | f in fs)
  {
    if |fs| > 0 {
      var init, last := fs[..|fs| - 1], fs[|fs| - 1];
      StepsFieldwise(c, env, init);
      assert fs == init + [last];
      assert (set f | f in fs) == (set f | f in init) + {last};
      StepOverridden(c, env, (set f | f in init), last);
    } else {
      assert (set f | f in fs) == {};
    }
  }

  /** One more override on top of a set of overrides adds its field to the set. */
  lemma StepOverridden(c: Config, env: Env, fields: set<Field>, f: Field)
    ensures Step(Overridden(c, env, fields), env, f) == Overridden(c, env, fields + {f})
  {
  }

  /** The overrides in source order override every field from its own variable. */
  lemma SourceOrderFieldwise(c: Config, env: Env)
    ensures Steps(c, env, SourceOrder) == Overridden(c, env, AllFields)
  {
    StepsFieldwise(c, env, SourceOrder);
    assert (set f | f in SourceOrder) == AllFields by {
      forall f: Field ensures f in SourceOrder {
        match f
        case Port => assert SourceOrder[0] == f;
        case CardPath => assert SourceOrder[1] == f;
        case APIPath => assert SourceOrder[2] == f;
        case AgentName => assert SourceOrder[3] == f;
        case AgentDesc => assert SourceOrder[4] == f;
        case AgentVersion => assert SourceOrder[5] == f;
      }
    }
  }

  /** Examining the variables in any order (repetitions allowed) gives the same configuration. */
  lemma OrderIndependent(env: Env, fs: seq<Field>)
    requires forall f: Field :: f in fs
    ensures Steps(DefaultConfig(), env, fs) == FromEnv(env)
  {
    StepsFieldwise(DefaultConfig(), env, fs);
    forall f: Field ensures f in (set g | g in fs) && f in AllFields {
      match f
      case Port =>
      case CardPath =>
      case APIPath =>
      case AgentName =>
      case AgentDesc =>
      case AgentVersion =>
    }
    assert (set f | f in fs) == AllFields;
  }

  /**
   * `LoadConfigFromEnv`, with the environment passed in: start from the defaults and
   * assign each field whose variable supplies a value.
   */
  method LoadConfigFromEnv(env: Env) returns (config: Config)
    ensures config == FromEnv(env)
  {
    config := DefaultConfig();
    var portStr := Getenv(env, PortVar);
    if portStr != "" {
      var port := Atoi(portStr);
      if port.Some? {
        config := config.(port := port.value);
      }
    }
    var cardPath := Getenv(env, CardPathVar);
    if cardPath != "" {
      config := config.(cardPath := cardPath);
    }
    var apiPath := Getenv(env, APIPathVar);
    if apiPath != "" {
      config := config.(apiPath := apiPath);
    }
    var agentName := Getenv(env, AgentNameVar);
    if agentName != "" {
      config := config.(agentName := agentName);
    }
    var agentDesc := Getenv(env, AgentDescVar);
    if agentDesc != "" {
      config := config.(agentDesc := agentDesc);
    }
    var agentVersion := Getenv(env, AgentVersionVar);
    if agentVersion != "" {
      config := config.(agentVersion := agentVersion);
    }
  }

  /** With every variable unset or empty, the loaded configuration is the default one. */
  lemma LoadWithEmptyEnv(env: Env)
    requires AllEmpty(env, AllVars)
    ensures FromEnv(env) == DefaultConfig()
  {
  }

  /**
   * The port is the value `Atoi` gives for a non-empty `A2A_SERVER_PORT`, with no range
   * check beyond `int`; otherwise 8080.
   */
  lemma LoadedPort(env: Env)
    ensures var s := Getenv(env, PortVar);
      FromEnv(env).port == if s != "" && Atoi(s).Some? then Atoi(s).value else 8080
  {
  }

  /** Each string field is its variable's value exactly when that value is non-empty. */
  lemma LoadedStrings(env: Env)
    ensures var s := Getenv(env, CardPathVar); FromEnv(env).cardPath == if s != "" then s else "/card"
    ensures var s := Getenv(env, APIPathVar); FromEnv(env).apiPath == if s != "" then s else "/api"
    ensures var s := Getenv(env, AgentNameVar); FromEnv(env).agentName == if s != "" then s else "Print Agent"
    ensures var s := Getenv(env, AgentVersionVar); FromEnv(env).agentVersion == if s != "" then s else "v0.1.0"
    ensures var s := Getenv(env, AgentDescVar);
      FromEnv(env).agentDesc == if s != "" then s else "A simple print agent for A2A Go SDK demonstration"
  {
  }

  /** Setting one field's variable to anything leaves every other loaded field as it was. */
  lemma OnlyOwnField(env: Env, f: Field, g: Field, value: string)
    requires g != f
    ensures SameField(FromEnv(env[VarOf(f) := value]), FromEnv(env), g)
  {
  }

  /**
   * `(*Config).String`: port, paths, name and version under fixed labels (no description).
   * The rendering opens with `Port: ` and the `%d` port, and the rest starts at a comma.
   */
  function String(c: Config): (s: string)
    ensures s == "Port: " + (Itoa(c.port) + AfterPort(c))
  {
    "Port: " + Itoa(c.port) + ", CardPath: " + c.cardPath + ", APIPath: " + c.apiPath
      + ", AgentName: " + c.agentName + ", AgentVersion: " + c.agentVersion
  }

  /** The part of `String` that follows the port number: it starts with a comma. */
  function AfterPort(c: Config): (s: string)
    ensures |s| > 0 && s[0] == ','
  {
    ", CardPath: " + c.cardPath + ", APIPath: " + c.apiPath
      + ", AgentName: " + c.agentName + ", AgentVersion: " + c.agentVersion
  }

  /** The description does not take part in the rendering. */
  lemma StringOmitsAgentDesc(c: Config, desc: string)
    ensures String(c.(agentDesc := desc)) == String(c)
  {
  }

  /** Two comma-free words each followed by a comma can only match when they are equal. */
  lemma CommaDelimited(a: string, x: string, b: string, y: string)
    requires ',' !in a && ',' !in b
    requires |x| > 0 && x[0] == ',' && |y| > 0 && y[0] == ','
    requires a + x == b + y
    ensures a == b
  {
    var k := if |a| < |b| then |a| else |b|;
    assert (a + x)[k] == (b + y)[k];
    assert |a| == |b|;
    assert a == (a + x)[..|a|];
    assert b == (b + y)[..|b|];
  }

  /** Two configurations that render alike have the same port. */
  lemma StringDeterminesPort(c: Config, d: Config)
    requires String(c) == String(d)
    ensures c.port == d.port
  {
    var a, x := Itoa(c.port), AfterPort(c);
    var b, y := Itoa(d.port), AfterPort(d);
    CancelPrefix("Port: ", a + x, b + y);
    ItoaHasNoComma(c.port);
    ItoaHasNoComma(d.port);
    CommaDelimited(a, x, b, y);
    ItoaInjective(c.port, d.port);
  }

  lemma CancelPrefix(p: string, u: string, v: string)
    requires p + u == p + v
    ensures u == v
  {
    assert u == (p + u)[|p|..];
    assert v == (p + v)[|p|..];
  }

  /** The rendering of the sample configuration used by the server's own tests. */
  lemma StringSample()
    ensures String(Config(9090, "/test-card", "/test-api", "Test Agent", "", "v1.0.0"))
      == "Port: 9090, CardPath: /test-card, APIPath: /test-api, AgentName: Test Agent, AgentVersion: v1.0.0"
  {
    assert Itoa(9090) == "9090" by {
      assert NatDigits(9) == "9";
      assert NatDigits(90) == "90";
      assert NatDigits(909) == "909";
    }
    SampleJoins1();
    SampleJoins2("Port: 9090, CardPath: /test-card, APIPath: ");
    SampleJoins3("Port: 9090, CardPath: /test-card, APIPath: /test-api, AgentName: ");
  }

  // The three lemmas below each equate one left-to-right chunk of the sample rendering;
  // equating the whole literal in a single proof is too costly for the solver.

  lemma SampleJoins1()
    ensures "Port: " + "9090" + ", CardPath: " + "/test-card" + ", APIPath: "
      == "Port: 9090, CardPath: /test-card, APIPath: "
  {
  }

  lemma SampleJoins2(p: string)
    requires p == "Port: 9090, CardPath: /test-card, APIPath: "
    ensures p + "/test-api" + ", AgentName: " == "Port: 9090, CardPath: /test-card, APIPath: /test-api, AgentName: "
  {
  }

  lemma SampleJoins3(p: string)
    requires p == "Port: 9090, CardPath: /test-card, APIPath: /test-api, AgentName: "
    ensures p + "Test Agent" + ", AgentVersion: " + "v1.0.0"
      == "Port: 9090, CardPath: /test-card, APIPath: /test-api, AgentName: Test Agent, AgentVersion: v1.0.0"
  {
  }
}
