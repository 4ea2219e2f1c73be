# A2A demo: queue registry and configuration loading

This project models the parts of the A2A Go SDK demo (a console client and a console
server) that hold logic of their own, in Dafny:

- **The server's task-queue registry** (`QueueManager`): a table from task id to an event
  queue handle with `Add`, `Get`, `Tap`, `Close` and `CreateOrTap`. It is a class whose
  `queues` field is a `map<string, Queue?>`, updated in place. Each call is one atomic step,
  because the registry's reader/writer lock only serialises calls. The SDK's queue is an
  opaque handle class that records only its capacity. Handles are compared by identity.
- **The server's configuration** (`ServerConfig`): the default values, and
  `LoadConfigFromEnv`, which overrides one field per environment variable. The environment
  is passed in as a `map<string, string>`, and an unset variable reads as `""`, as with
  `os.Getenv`. `String` renders the port, the paths, the agent name and the version.
  `LoadConfigFromEnv` is a method that assigns fields step by step, as the Go code does. It
  is proved equal to `FromEnv`, which applies the six override steps in source order. The
  lemmas show that any order of the steps gives the same result, and that each variable
  decides its own field only.
- **The client's configuration** (`ClientConfig`): the same default-then-override pattern
  over the server URL, the card path, the API path and the timeout. A `time.Duration` is an
  integer count of nanoseconds. `A2A_TIMEOUT_SECONDS = n` gives `n * 10^9`, with Go's signed
  64-bit wrap-around.
- **`strconv.Atoi` and `%d`** (`Strconv`), as the configuration code uses them on a 64-bit
  platform. `Atoi` accepts an optional `+` or `-`, then one or more ASCII digits, and the
  value must lie in the `int64` range. Any other input is an error, modelled as `None`.
  `Itoa` renders an integer, and `Atoi(Itoa(n)) == Some(n)` is proved for every 64-bit `n`.

A missing task id is not an error. `Get`, `Tap` and `Close` report it as a nil handle or a
no-op, and every registry operation returns a nil error. This is what the code does, and the
model follows the code.

## Model

| member | source | states |
|---|---|---|
| `Strconv.Atoi` | basic/server/config.go:37 | `strconv.Atoi` succeeds exactly on an optional sign followed by at least one digit whose value fits in `int64`, and then returns that value |
| `Strconv.ParseSigned` | basic/client/config.go:46 | the sign-and-digits syntax of `Atoi` is accepted exactly when it is well formed, and the sign of the value follows the sign character |
| `Strconv.Itoa` | basic/server/config.go:67 | the `%d` rendering is a `-` exactly for negative numbers, followed by digits only, with no leading zero for a non-negative number of two or more digits |
| `Strconv.AtoiOfItoa` | basic/server/config.go:67 | the `%d` rendering of every 64-bit integer parses back with `Atoi` to the same integer |
| `Strconv.ParseSignedOfItoa` | basic/server/config.go:67 | the `%d` rendering of any integer parses back to that integer (proved by induction over the digits) |
| `Strconv.DigitsValueOfNatDigits` | basic/server/config.go:67 | the decimal digits of a natural number evaluate back to that number |
| `Strconv.ItoaInjective` | basic/server/config.go:67 | distinct integers render as distinct `%d` texts |
| `Strconv.ItoaHasNoComma` | basic/server/config.go:67 | a `%d` rendering holds no comma, so it cannot run into the next `, Label:` of a rendering |
| `Strconv.Int64Wrap` | basic/client/config.go:47 | signed 64-bit arithmetic: the result lies in the `int64` range, is congruent to the exact value modulo 2^64, and equals it when it fits |
| `Environment.Getenv` | basic/server/config.go:36 | an unset variable reads as the empty string, and a set one reads as its value |
| `Environment.OverrideString` | basic/server/config.go:42-44 | a string field takes its variable's value exactly when that value is non-empty, and otherwise keeps its current value |
| `ServerQueue.QueueManager.constructor` | basic/server/queue.go:18-22 | a new manager starts with an allocated, empty table |
| `ServerQueue.QueueManager.Add` | basic/server/queue.go:25-32 | the entry for the id becomes the given handle, replacing any earlier one; every other entry is unchanged; the error is nil |
| `ServerQueue.QueueManager.Get` | basic/server/queue.go:35-47 | returns the stored handle for a present id, and a nil handle with a nil error for an absent one; the table is not changed |
| `ServerQueue.QueueManager.Tap` | basic/server/queue.go:50-52 | returns what `Get` returns and has no other effect |
| `ServerQueue.QueueManager.Close` | basic/server/queue.go:55-64 | afterwards the id is not a key; every other entry is unchanged; an absent id leaves the table as it was; the error is nil |
| `ServerQueue.QueueManager.CreateOrTap` | basic/server/queue.go:67-82 | a present id returns its stored handle and the table does not change; an absent id gets a fresh queue of capacity 10, stored under it and returned; the error is nil |
| `ServerQueue.Queue.NewQueue` | basic/server/queue.go:78 | a new queue handle records the capacity it was created with |
| `ServerQueue.CreateThenGet` | basic/server/queue.go:77-81 | for an unregistered id, `CreateOrTap` followed by `Get` yields the same fresh handle of capacity 10, and no other entry changes |
| `ServerQueue.CloseTwice` | basic/server/queue.go:59-63 | `Close` is idempotent: closing twice leaves the same table as closing once, and neither call fails |
| `ServerConfig.DefaultConfig` | basic/server/config.go:20-29 | the defaults are port 8080, card path `/card`, API path `/api`, name `Print Agent`, version `v0.1.0` and the fixed description |
| `ServerConfig.PortOverride` | basic/server/config.go:36-40 | the port becomes the parsed value when `A2A_SERVER_PORT` is non-empty and `Atoi` accepts it, and stays unchanged otherwise |
| `ServerConfig.Step` | basic/server/config.go:36-60 | each override step writes its own field and no other |
| `ServerConfig.StepsFieldwise` | basic/server/config.go:36-60 | any sequence of override steps equals overriding the set of fields it mentions, because each step reads only its own field and repeating it changes nothing |
| `ServerConfig.StepOverridden` | basic/server/config.go:36-60 | one more override step adds its field to the set of overridden fields |
| `ServerConfig.SourceOrderFieldwise` | basic/server/config.go:36-60 | the six override steps in source order override every field from its own variable |
| `ServerConfig.FromEnv` | basic/server/config.go:32-63 | loading starts from the defaults and overrides every field from its own variable, one step per field in source order |
| `ServerConfig.OrderIndependent` | basic/server/config.go:36-60 | examining the variables in any order that covers all of them yields the same configuration as the source order |
| `ServerConfig.LoadConfigFromEnv` | basic/server/config.go:32-63 | the step-by-step assignments from the defaults produce exactly the override of every field in source order |
| `ServerConfig.LoadWithEmptyEnv` | basic/server/config.go:32-63 | with every `A2A_*` variable unset or empty, the loaded configuration is the default one |
| `ServerConfig.LoadedPort` | basic/server/config.go:36-40 | the port is `n` when `A2A_SERVER_PORT` is non-empty and parses to `n`, with no range check, and 8080 otherwise |
| `ServerConfig.LoadedStrings` | basic/server/config.go:42-60 | card path, API path, name, description and version each equal their variable when it is non-empty, and the default otherwise |
| `ServerConfig.OnlyOwnField` | basic/server/config.go:36-60 | changing one field's variable leaves every other loaded field unchanged |
| `ServerConfig.StringOmitsAgentDesc` | basic/server/config.go:66-68 | the description does not appear in the rendering |
| `ServerConfig.StringDeterminesPort` | basic/server/config.go:66-68 | two configurations with the same rendering have the same port: the port can be read back from the text |
| `ServerConfig.String` | basic/server/config.go:66-68 | the rendering is `Port: `, then the `%d` port, then the other fields under their labels starting at a comma; the lemmas below show the description is absent and the port can be read back |
| `ServerConfig.StringSample` | basic/server/main_test.go:41-56 | the sample configuration of the server's tests renders as the text those tests expect |
| `ClientConfig.DefaultConfig` | basic/client/config.go:19-26 | the defaults are `http://localhost:8080`, card path `card` (no leading slash), API path `/api` and a 30 s timeout |
| `ClientConfig.Seconds` | basic/client/config.go:47 | `time.Duration(n) * time.Second` is a 64-bit value, exactly `n * 10^9` nanoseconds whenever that fits |
| `ClientConfig.TimeoutOverride` | basic/client/config.go:45-49 | the timeout becomes `n` seconds when `A2A_TIMEOUT_SECONDS` is non-empty and parses to `n`, and stays unchanged otherwise |
| `ClientConfig.LoadConfigFromEnv` | basic/client/config.go:29-52 | the step-by-step assignments from the defaults produce each field overridden from its own variable |
| `ClientConfig.FromEnv` | basic/client/config.go:29-52 | loading keeps the default of every field whose variable is unset or empty, and the timeout always fits a 64-bit `Duration` |
| `ClientConfig.LoadWithEmptyEnv` | basic/client/config.go:29-52 | with every `A2A_*` variable unset or empty, the loaded configuration is the default one |
| `ClientConfig.LoadedStrings` | basic/client/config.go:33-43 | server URL, card path and API path each equal their variable when it is non-empty, and the default otherwise |
| `ClientConfig.LoadedTimeout` | basic/client/config.go:45-49 | the timeout is `n` seconds when the variable parses to `n`, with no sign or range check, and 30 s otherwise |
| `ClientConfig.LoadedTimeoutExact` | basic/client/config.go:45-49 | the `%d` text of any whole number of seconds that fits a `Duration` yields exactly that many seconds |
| `ClientConfig.LoadedTimeoutWraps` | basic/client/config.go:47 | one second more than a `Duration` holds is accepted by `Atoi` and wraps round to a negative timeout |
| `ClientConfig.OnlyOwnField` | basic/client/config.go:33-49 | changing one field's variable leaves every other loaded field unchanged |
| `ClientConfig.String` | basic/client/config.go:55-57 | the rendering opens with `ServerURL: `, the URL and `, AgentCardPath: `, and ends with `, Timeout: ` followed by the duration's text |
| `ClientConfig.StringSample` | basic/client/main_test.go:38-52 | the sample configuration of the client's tests renders as the text those tests expect, given that the 60 s duration is written `1m0s` |

## Left out

- Concurrency: the `sync.RWMutex` of `QueueManager` only serialises calls, so each method is one atomic step. Lock blocking and reader parallelism are not modelled.
- The `context.Context` parameters of the registry methods are unused by the code and are dropped.
- Logging (`log.Printf`) is output only and is not modelled.
- The internals of the SDK's `event.Queue`: a handle records only its capacity.
- `ClientConfig.String`: how `time.Duration` renders itself (`1m0s`) is library formatting. It is a parameter of the model, so the rendering is stated only up to that text.
- `basic/client/main.go`, `basic/server/main.go` and `basic/server/executor.go` are not part of this model. They are HTTP, console and SDK orchestration, signal handling and a print-only executor.
- Go strings are byte sequences; the model uses characters. Only ASCII digits and signs matter to `Atoi`, so this makes no difference to what is accepted.
- `Strconv.Atoi` assumes a 64-bit platform, where `int` is `int64`. A 32-bit build would accept a smaller range.
