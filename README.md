# V# runner front end and ML agent protocol, modelled in Dafny

This project models two small pieces of the V# symbolic-execution tool chain.

**The runner's command front end** (`VSharp.Runner/RunnerProgram.cs`) turns a user's
command line into one call of the exploration engine:

- `TryLoadAssembly` loads an assembly from the `FullName` of the given path, or reports the
  failure, naming that full path, and yields null.
- `ResolveType` turns a class name into one type. A null name fails. An exact full-name
  match wins. Otherwise the type whose `FullName ?? Name` contains the query and is
  shortest is chosen, the earliest one on ties.
- `ResolveMethod` turns a method name or a metadata token into one method. A string that
  `Int32.TryParse` accepts is looked up as a token in each module in turn. Any other string
  is split on `.` into a class fragment and a method fragment. The first type with a
  matching method fixes the result: its matching method with the shortest name.
- The five command handlers (entry point, all public methods, type, method, namespace) load
  the assembly and, except for the first two, resolve the target, returning early with a
  diagnostic on failure. They build the options (the first two before the load check, the
  others after resolution) and call exactly one of `Cover` / `CoverAndRun`, chosen by
  `--run-tests`, and report the statistics once.

**The agent's protocol client** (`VSharp.ML.AIAgent/agent/n_agent.py`, class `NAgent`)
plays a game against the server over a websocket:

- It sends a start message.
- It sends steps (a chosen state id and its predicted usefulness).
- It receives game states and rewards.
- It stops when the server says the game is over.

Module by module:

- `Wrappers`: `Option`, the stand-in for a null reference.
- `Text`: the string operations the resolvers use: ordinal `Contains`; `Split(char)`,
  which `Join` undoes; and `Int32.TryParse`, with `Int32ToString` rendering every value as a
  string that parses back to it.
- `Linq`: `Where(p).MinBy(key)`, as the position of the chosen element.
- `Reflection`: an assembly is plain data. It has a location, its types in `GetTypes()`
  order (each with an optional full name, a name and a method listing that may throw) and
  its modules. A module maps tokens to a method or to null; a token it does not hold
  throws.
- `TypeResolution`: `ResolveType` and its properties.
- `MethodResolution`: `ResolveMethod`, a method with the source's two loops (`break` at
  the first hit, swallowed exceptions). It is proved equal to a specification built from
  one search, `FirstSome` ("the first element that yields a result"), and the properties
  are proved about that specification.
- `Dispatch`: the five handlers. Each is a method returning the trace of what it did:
  diagnostics, engine calls and reports. The loader, the engine and the `ResolveType`,
  `ResolveMethod` and `ResolveNamespace` extension methods of the utilities library are
  given as a `Host` of functions. That library is not part of this model.
- `Agent`: the `NAgent` class, with fields `gameIsOver`, `currentStep`, `sentStateId` and
  the log `sent` of messages it put on the websocket. Each receiving method takes the
  message the websocket delivers. The constructor and `SendStep` state their effect on the
  fields directly. The receiving methods and `RaiseIfGameOver` are proved against pure
  functions on `AgentState`, and the protocol properties are proved about those functions.

Details of the code the model follows:

- The fuzzy type lookup always searches and measures `FullName ?? Name`, also when the
  query has no namespace separator. "Shortest" is by length. Ties go to enumeration order.
- Both "shortest name" choices rank by .NET's `Length`, which counts UTF-16 code units: a
  character above U+FFFF counts twice. A Dafny string's own length counts characters, so
  the model measures names with `Utf16Length`.
- The name path of `ResolveMethod` filters on the last `.`-segment of the type's
  `FullName`, not on `Type.Name`. The two differ for nested types, whose full names use `+`.
  A type whose `FullName` is null never yields a candidate.
- `GetMethods` lists methods only. Constructors are never candidates.
- The all-public-methods handler accepts `--single-file` but does not pass it on.
- The entry-point and all-public-methods handlers build their options before checking the
  load. The type, method and namespace handlers build them after resolution. Nothing
  observable depends on the order.
- The assembly is loaded from, and a failed load names, `assemblyPath.FullName`. The options'
  output directory is `output.FullName`. Both are the absolute form of the given path.

## Model

| member | source | states |
|---|---|---|
| `Text.Contains` | VSharp.Runner/RunnerProgram.cs:40 | ordinal `string.Contains`: the fragment occurs at some position, so it is never longer than the string |
| `Text.ContainsEmpty` | VSharp.Runner/RunnerProgram.cs:90-100 | the empty fragment (a one-segment query's class fragment, or a query ending in `.`) is contained in every name |
| `Text.Split` | VSharp.Runner/RunnerProgram.cs:89 | `string.Split(char)` keeping empty entries: there is always at least one segment; characterised by `Text.SplitSegmentsExcludeSeparator` and `Text.JoinSplit` |
| `Text.SplitSegmentsExcludeSeparator` | VSharp.Runner/RunnerProgram.cs:89 | no segment produced by `Split('.')` contains a `.` |
| `Text.JoinSplit` | VSharp.Runner/RunnerProgram.cs:89 | splitting loses nothing: joining the segments with the separator gives back the string |
| `Text.SplitWithoutSeparator` | VSharp.Runner/RunnerProgram.cs:89-90 | a string without `.` splits into exactly one segment, itself |
| `Text.Utf16Length` | VSharp.Runner/RunnerProgram.cs:41 | `string.Length` counts UTF-16 code units: at least the number of characters and at most twice it |
| `Text.Utf16LengthIsCharCount` | VSharp.Runner/RunnerProgram.cs:41 | the UTF-16 length equals the number of characters exactly when every character lies in the Basic Multilingual Plane |
| `Text.ParseInt32` | VSharp.Runner/RunnerProgram.cs:61 | `Int32.TryParse` succeeds only with a value in the 32-bit signed range and only on a string holding a decimal digit |
| `Text.ParseInt32RoundTrip` | VSharp.Runner/RunnerProgram.cs:61 | the decimal rendering of every 32-bit integer parses back to that integer, so every token can be given on the command line |
| `Linq.WhereMinByIndex` | VSharp.Runner/RunnerProgram.cs:39-41 | `Where(p).MinBy(key)` picks an element satisfying `p` with the least key, every earlier such element having a strictly larger key; nothing exactly when no element satisfies `p` |
| `Linq.WhereMinBy` | VSharp.Runner/RunnerProgram.cs:99-101 | the element form of the same: null exactly when nothing passes the filter, otherwise a passing element of least key, first on ties |
| `TypeResolution.ExactIndex` | VSharp.Runner/RunnerProgram.cs:38 | `GetType(name)` finds the first type whose full name is exactly `name`, and fails exactly when no full name equals it |
| `TypeResolution.ResolveType` | VSharp.Runner/RunnerProgram.cs:29-50 | a null query yields null; any type returned is one of the assembly's types |
| `TypeResolution.NullQueryFails` | VSharp.Runner/RunnerProgram.cs:31-35 | a null query fails whatever types the assembly holds |
| `TypeResolution.ExactMatchWins` | VSharp.Runner/RunnerProgram.cs:37-38 | the first type whose full name equals the query is returned, even when a shorter name contains the query |
| `TypeResolution.FuzzyMatchIsShortestFirst` | VSharp.Runner/RunnerProgram.cs:39-41 | without an exact match the result's `FullName ?? Name` contains the query, is no longer (in UTF-16 code units) than that of any type containing it, and is strictly shorter than that of every earlier type containing it |
| `TypeResolution.NotFoundExactly` | VSharp.Runner/RunnerProgram.cs:37-47 | the result is null exactly when no full name equals the query and no `FullName ?? Name` contains it |
| `TypeResolution.WidgetExample` | VSharp.Runner/RunnerProgram.cs:37-41 | `Widget` resolves to `My.Namespace.Widget` rather than `My.Namespace.Sub.Widgetry`, in either enumeration order |
| `TypeResolution.ShorterOfTwoWins` | VSharp.Runner/RunnerProgram.cs:39-41 | of two types that both contain a query no full name equals, the one with the shorter name is chosen, whichever comes first |
| `TypeResolution.SurrogatePairsCountTwice` | VSharp.Runner/RunnerProgram.cs:41 | `X` resolves to `XYZW` (four code units) rather than `X😀😀` (three characters but five code units), in either enumeration order |
| `MethodResolution.FirstSomeIsFirst` | VSharp.Runner/RunnerProgram.cs:63-74 | a search that stops at its first hit yields the result of the first element that has one, all earlier ones having none, and nothing exactly when no element has one |
| `MethodResolution.FirstSomeIgnoresRest` | VSharp.Runner/RunnerProgram.cs:85-109 | once an element has a result, appending further elements does not change what the search yields |
| `MethodResolution.ResolveInModule` | VSharp.Runner/RunnerProgram.cs:65-73 | no contract of its own: one module's answer inside the `try`, a method when the module maps the token to one, nothing when it maps it to null or throws; `MethodResolution.ResolveByTokenIsFirst` and `MethodResolution.LaterModulesIgnored` are stated in terms of it |
| `MethodResolution.ResolveByToken` | VSharp.Runner/RunnerProgram.cs:61-81 | no contract of its own; characterised by `MethodResolution.ResolveByTokenIsFirst` and `MethodResolution.LaterModulesIgnored` |
| `MethodResolution.ResolveByTokenIsFirst` | VSharp.Runner/RunnerProgram.cs:61-81 | the token path yields the method of the first module that resolves the token to non-null, skipping modules that throw or return null, and fails exactly when none does |
| `MethodResolution.LaterModulesIgnored` | VSharp.Runner/RunnerProgram.cs:63-74 | modules after the first that resolves the token are never consulted |
| `MethodResolution.ClassFragment` | VSharp.Runner/RunnerProgram.cs:90 | the class fragment of a query is free of `.`: a single segment of the name, "" for a one-segment query (`MethodResolution.SingleSegmentQuery`) |
| `MethodResolution.LastSegment` | VSharp.Runner/RunnerProgram.cs:91-100 | `Split('.').Last()` is free of `.`: applied to the query it is the method fragment, the whole query when it has no `.` (`MethodResolution.SingleSegmentQuery`); applied to a type's `FullName` it is the simple name the class fragment is matched against |
| `MethodResolution.TypeCandidate` | VSharp.Runner/RunnerProgram.cs:94-101 | a type yields a candidate only when its method listing does not throw and its full name is not null |
| `MethodResolution.TypeCandidateIsShortest` | VSharp.Runner/RunnerProgram.cs:99-101 | a type's candidate lies in a type whose last full-name segment contains the class fragment, contains the method fragment, has a minimal UTF-16 name length among its matching methods and is the first of that length; a type passing the class filter yields nothing only when none of its methods contains the method fragment |
| `MethodResolution.ResolveByName` | VSharp.Runner/RunnerProgram.cs:85-116 | no contract of its own; characterised by `MethodResolution.ResolveByNameIsFirst`, `MethodResolution.LaterTypesIgnored` and, per type, `MethodResolution.TypeCandidateIsShortest` |
| `MethodResolution.ResolveByNameIsFirst` | VSharp.Runner/RunnerProgram.cs:85-116 | the name path yields the candidate of the first type that has one, skipping types that throw, and fails exactly when no type has one |
| `MethodResolution.LaterTypesIgnored` | VSharp.Runner/RunnerProgram.cs:85-109 | the first type with any match fixes the result; later types are never consulted, even one with a tighter match |
| `MethodResolution.SingleSegmentQuery` | VSharp.Runner/RunnerProgram.cs:89-91 | a query without `.` has the empty class fragment and is itself the method fragment, so it passes the class filter of every type with a full name |
| `MethodResolution.ResolvedMethod` | VSharp.Runner/RunnerProgram.cs:52-120 | no contract of its own: the specification the `ResolveMethod` loops are proved equal to (null for a null argument, `ResolveByToken` when the argument parses as an Int32, `ResolveByName` on its fragments otherwise) |
| `MethodResolution.ResolveMethod` | VSharp.Runner/RunnerProgram.cs:52-120 | the two loops, with their `break`s and swallowed exceptions, return exactly the method the specification selects: null for a null argument, the token path when the argument parses as an Int32, the name path otherwise |
| `Dispatch.DispatchedCounts` | VSharp.Runner/RunnerProgram.cs:280-285 | a successful handler's trace holds one engine call, `CoverAndRun` exactly when `--run-tests` is set, on the resolved target, and one report |
| `Dispatch.FailedCounts` | VSharp.Runner/RunnerProgram.cs:318-325 | a failed handler's trace holds no engine call and no report |
| `Dispatch.TryLoadAssembly` | VSharp.Runner/RunnerProgram.cs:15-27 | the assembly is returned exactly when loading the path's `FullName` succeeds; on failure null is returned with one diagnostic naming that full path and the failure's message |
| `Dispatch.EntryPointHandler` | VSharp.Runner/RunnerProgram.cs:261-286 | a failed load ends with its diagnostic and no engine call; otherwise one dispatch on the entry point, with null arguments exactly when `--unknown-args` is set |
| `Dispatch.AllPublicMethodsHandler` | VSharp.Runner/RunnerProgram.cs:288-312 | a failed load ends with its diagnostic and no engine call; otherwise one dispatch on the whole assembly |
| `Dispatch.TypeHandler` | VSharp.Runner/RunnerProgram.cs:314-345 | no engine call exactly when the load or the type resolution fails, each with its own diagnostic; otherwise one dispatch on the resolved type |
| `Dispatch.MethodHandler` | VSharp.Runner/RunnerProgram.cs:347-394 | a name that parses as an Int32 is resolved as a token, any other as a name; a failed load or resolution ends with its diagnostic and no engine call; otherwise one dispatch on the method; never more than one engine call, always as many reports as engine calls |
| `Dispatch.NamespaceHandler` | VSharp.Runner/RunnerProgram.cs:396-426 | no engine call exactly when the load fails or the namespace has no types; otherwise one dispatch on those types |
| `Agent.CheckGameOver` | VSharp.ML.AIAgent/agent/n_agent.py:56-72 | the flag ends up set exactly when the game was over or the message is GAMEOVER; a message comes back unchanged exactly when the flag stays clear; anything raised is `GameOver`, carrying the message's coverage unless the game was already over |
| `Agent.CheckGameOverAsWritten` | VSharp.ML.AIAgent/agent/n_agent.py:56-58 | as written, once the game is over the check raises `TypeError`; the flag behaves as in the corrected check |
| `Agent.AsWrittenRaisesTypeErrorAfterGameOver` | VSharp.ML.AIAgent/agent/n_agent.py:56-58 | after game over the code as written raises `TypeError` where `GameOver` is meant; before game over it agrees with the corrected check |
| `Agent.ProcessReward` | VSharp.ML.AIAgent/agent/n_agent.py:102-117 | MOVE_REVARD returns the message body and advances the step by one; INCORRECT_PREDICTED_STATEID raises `IncorrectSentStateError` with the state id last sent and the current step (`AttributeError` when no step was ever sent); every other type raises `RuntimeError` naming the type; only MOVE_REVARD changes the step; the flag and the sent state id never change |
| `Agent.RecvReward` | VSharp.ML.AIAgent/agent/n_agent.py:93-100 | a reward body comes back exactly when the game is running and the reply is MOVE_REVARD, and only then does the step advance (by one); `GameOver` is raised exactly when the game was over (with no coverage) or the reply is GAMEOVER (with its coverage); in a running game INCORRECT_PREDICTED_STATEID raises `IncorrectSentStateError` (`AttributeError` before any step) and any other type `RuntimeError` |
| `Agent.RecvState` | VSharp.ML.AIAgent/agent/n_agent.py:74-81 | the body comes back exactly when the game is running and the message is not GAMEOVER; anything raised is `GameOver`, carrying the message's coverage, or none once the game was already over; only the game-over flag can change |
| `Agent.GameOverIsFinal` | VSharp.ML.AIAgent/agent/n_agent.py:56-58 | once the game is over, no sequence of replies changes the agent's state |
| `Agent.StepCountsRewards` | VSharp.ML.AIAgent/agent/n_agent.py:110-112 | while no GAMEOVER arrives, the step counter grows by exactly the number of MOVE_REVARD replies and nothing else changes |
| `Agent.NAgent.constructor` | VSharp.ML.AIAgent/agent/n_agent.py:40-54 | exactly one message is sent, the start message with the map id and step count; the step is 0 and the game is not over |
| `Agent.NAgent.RaiseIfGameOver` | VSharp.ML.AIAgent/agent/n_agent.py:56-72 | result and new flag are those of the corrected check; nothing else changes |
| `Agent.NAgent.RecvStateOrThrowGameOver` | VSharp.ML.AIAgent/agent/n_agent.py:74-81 | result and new state are those of `RecvState`; nothing is sent |
| `Agent.NAgent.SendStep` | VSharp.ML.AIAgent/agent/n_agent.py:83-91 | one step message with the given state id and usefulness is appended to what was sent, the sent state id becomes that id, the step and the flag are unchanged |
| `Agent.NAgent.RecvRewardOrThrowGameOver` | VSharp.ML.AIAgent/agent/n_agent.py:93-100 | result and new state are those of `RecvReward`; nothing is sent |
| `Agent.NAgent.ProcessRewardServerMessage` | VSharp.ML.AIAgent/agent/n_agent.py:102-117 | result and new state are those of `ProcessReward`; nothing is sent |

## Findings

| source | as written | input that shows it | evidently intended | confidence | as-written member | corrected member |
|---|---|---|---|---|---|---|
| VSharp.ML.AIAgent/agent/n_agent.py:57-58 | `raise NAgent.GameOver` raises the class, so Python instantiates `GameOver()` with no arguments. Its `__init__` requires `actual_coverage` (line 36), so a `TypeError` is raised instead of `GameOver` | any message received after a GAMEOVER message has set `game_is_over` | raise `GameOver` with no coverage, so that callers catching `GameOver` stop | high; not executed | `Agent.CheckGameOverAsWritten`, `Agent.AsWrittenRaisesTypeErrorAfterGameOver` | `Agent.CheckGameOver` |

## Left out

- Assembly loading (`AssemblyManager.LoadFromAssemblyPath`) is a `Host.load` function returning the assembly or the failure's message. The stack trace written to standard error is not modelled.
- Real .NET reflection is plain data. `GetTypes()` throwing `ReflectionTypeLoadException` is not modelled.
- `ExactIndex`: models `Assembly.GetType(name)` as exact equality with `FullName`. Its name grammar is not modelled: nested types written with `+`, generic arguments, and the exception for an empty name.
- `ParseInt32`: accepts optional leading and trailing white space, one `+` or `-`, and ASCII digits with a value in range. Culture-specific sign symbols and the trailing NUL characters newer runtimes accept are not modelled.
- The diagnostics the static `ResolveType`/`ResolveMethod` write to standard error are not modelled; a failure is a null (None) result.
- The engine (`TestGenerator.Cover`/`CoverAndRun`), report rendering (`Statistics.GenerateReport`) and the utilities library's `ResolveType`/`ResolveMethod`/`ResolveNamespace` are foreign code. They are `Host` functions, and their calls appear in the trace.
- The command-line wiring (options, aliases, defaults, `rootCommand.Invoke` and its exit code) is left out. It is framework plumbing; a handler receives the parsed values.
- `FileSystemInfo.FullName` (path normalisation against the working directory), used for the assembly path and the output directory, is a `Host.fullPath` function.
- Enumerated options (search strategy, verbosity, exploration mode) are their ordinals. `uint` recursion thresholds are `nat`.
- `VSharp.ML.AIAgent/main.py` is left out: genetic-algorithm configuration over floating-point weights, randomness, multiprocessing and file and log setup.
- In `n_agent.py`, the websocket, JSON (de)serialisation and logging are left out. `recv_state_or_throw_gameover` returns the body of any non-GAMEOVER message as received; the shape checks of the JSON decoder are not modelled.
- `NAgent.WrongAgentStateError` is declared but never raised, so it is not modelled.
- The text of the agent's exception messages is not modelled; an exception carries the values its message mentions. An INCORRECT_PREDICTED_STATEID reply before any `send_step` raises `AttributeError`, because `_sent_state_id` is first assigned there.
