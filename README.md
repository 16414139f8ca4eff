# Mokka recorders in Dafny

Mokka is a Swift test-double library. A hand-written fake implements a protocol
and delegates each member to a small recorder object. This project models those
recorders and proves what they promise:

- `FunctionMock` (module `FunctionMocks`) counts calls to a mocked function and
  keeps the arguments of the last call. It runs one replaceable side-effect block
  per call. It can be told to throw a configured error after recording a call.
- `ReturningFunctionMock` (module `ReturningFunctionMocks`) adds an append-only,
  ordered list of stubs and a default return value. A call returns the value of
  the first stub, in insertion order, whose condition is absent or holds. When no
  stub handles the call it returns the default value.
- `PropertyMock` (module `PropertyMocks`) holds a fake property value. It keeps
  sticky flags for reads through the getter path and writes through the setter path.
- `LegacyFunctionMock` (module `LegacyFunctionMocks`) is the older function
  recorder in `Mokka/FunctionMock/FunctionMock.swift`. It has a required name and
  no error state, and its reset forgets only the calls.
- Module `Scenarios` replays the library's own test cases against the model. Each
  of its methods builds fresh mocks and states what the test asserts.

Modelling choices:

- Each recorder is a `class` whose methods update its fields in place, as in Swift.
- Swift's `T?` is `Option<T>`. A `throws` call returns `Outcome<E>` or
  `Result<R, E>` over an abstract error type `E`.
- `preconditionFailure` becomes a `requires` clause. Reading a property without a
  value is one. Resolving a call with no handling stub and no default is another.
- Subclassing is modelled by composition. `ReturningFunctionMock.base` is the
  `FunctionMock` that holds the inherited call state. `sut.recordCall(x)` on the
  subclass is `sut.base.RecordCall(x)`. Only `ReturningFunctionMock.Reset` models
  the subclass's `reset()`. Swift dispatches `reset()` dynamically to the
  override, so calling `base.Reset()` alone on a returning mock leaves its stubs
  and default in place, a state that Swift code cannot reach.
- Each function recorder keeps a ghost history `calls` of the arguments recorded
  since the last reset. `Valid()` states that `callCount` is the length of that
  history and that `arguments` is its last element.
- Stub blocks, handlers and conditions are pure Dafny functions. The effect of a
  stub block is recorded in a ghost log `stubCalls` of (block, arguments) pairs.
- The first-match search `stubs.first(where:)` is the recursive function
  `FirstMatch`. `Resolve` adds the default fallback, with `None` standing for the
  precondition failure. `Scan` is an independent front-to-back definition, and
  `ResolveIsScan` proves the two agree.
- `recordCallAndReturnOrThrow` is called by the tests, but its definition is not
  part of this model. It is modelled as the tests describe it: record the call,
  then throw the configured error if one is set, else resolve a value.
- `reset` keeps the installed stub block in both function recorders, because the
  code of both variants leaves `stubBlock` untouched.

## Model

| member | source | states |
|---|---|---|
| FunctionMocks.FunctionMock.constructor | Mokka/Sources/FunctionMock/FunctionMock.swift:45-77 | a new mock has the given name, `callCount == 0`, no arguments, no stub block and no error |
| FunctionMocks.GettersDescribeCalls | Mokka/Sources/FunctionMock/FunctionMock.swift:50-64 | `called` holds iff there was a call since the last reset, `calledOnce` iff exactly one, and `argument` equals `arguments`, the last call's arguments |
| FunctionMocks.FunctionMock.Stub | Mokka/Sources/FunctionMock/FunctionMock.swift:85-87 | the single stub-block slot now holds the new block, whatever it held before |
| FunctionMocks.FunctionMock.RecordCall | Mokka/Sources/FunctionMock/FunctionMock.swift:93-97 | the count grows by exactly one, `arguments` becomes the new arguments (last call wins), the call history gains them, and the current stub block, if any, is invoked with them; nothing else changes |
| FunctionMocks.FunctionMock.RecordCallAndThrow | Mokka/Sources/FunctionMock/FunctionMock.swift:104-109 | records the call exactly as `RecordCall`, then throws iff an error is configured, and the thrown error is the configured one |
| FunctionMocks.FunctionMock.Throws | Mokka/Sources/FunctionMock/FunctionMock.swift:112-114 | the configured error becomes `e`; `RecordCallAndThrow` leaves it in place, so every later call throws `e` until a reset |
| FunctionMocks.FunctionMock.Reset | Mokka/Sources/FunctionMock/FunctionMock.swift:118-122 | count 0, no arguments, no error, empty call history; name and stub block unchanged |
| FunctionMocks.RecordCallWithoutArguments | Mokka/Sources/FunctionMock/FunctionMock.swift:128-131 | behaves exactly as `RecordCall(())` |
| FunctionMocks.RecordCallAndThrowWithoutArguments | Mokka/Sources/FunctionMock/FunctionMock.swift:134-136 | behaves exactly as `RecordCallAndThrow(())` |
| ReturningFunctionMocks.FirstMatch | Mokka/Sources/FunctionMock/ReturningFunctionMock.swift:66 | the result is the position of a stub that handles the arguments and no earlier stub handles them; it is absent iff no stub handles them |
| ReturningFunctionMocks.Resolve | Mokka/Sources/FunctionMock/ReturningFunctionMock.swift:66-73 | the first handling stub's value wins over later ones; with no handling stub the default is used; there is no value iff there is neither |
| ReturningFunctionMocks.ResolveIsScan | Mokka/Sources/FunctionMock/ReturningFunctionMock.swift:66-73 | first-match resolution equals a front-to-back scan that falls back to the default, on every input |
| ReturningFunctionMocks.FirstMatchAfterAppend | Mokka/Sources/FunctionMock/ReturningFunctionMock.swift:87-90 | appending a stub keeps an existing first match; otherwise the new stub is the match iff it handles the arguments |
| ReturningFunctionMocks.ResolveAfterAppend | Mokka/Sources/FunctionMock/ReturningFunctionMock.swift:111-114 | after `returns`, a call an earlier stub handles resolves as before; otherwise the new stub's value if it handles the call, else the default |
| ReturningFunctionMocks.EarlierStubWins | Mokka/Tests/FunctionMock/ReturningFunctionMockTests.swift:108-113 | of two stubs that both handle a call, the one added first supplies the value |
| ReturningFunctionMocks.HandleByMode | Mokka/Sources/FunctionMock/ReturningFunctionMock.swift:145-152 | a static stub yields its stored value whatever the arguments; a handler stub yields the handler applied to the arguments |
| ReturningFunctionMocks.ReturningFunctionMock.constructor | Mokka/Sources/FunctionMock/ReturningFunctionMock.swift:40-45 | a new mock is a fresh base mock with the given name, no stubs and no default value |
| ReturningFunctionMocks.ReturningFunctionMock.Reset | Mokka/Sources/FunctionMock/ReturningFunctionMock.swift:49-54 | the base reset, plus no default value and no stubs; the stub block stays |
| ReturningFunctionMocks.ReturningFunctionMock.RecordCallAndReturn | Mokka/Sources/FunctionMock/ReturningFunctionMock.swift:62-74 | records the call as `RecordCall` does and returns the resolved value; requires that a stub handles the call or a default exists |
| ReturningFunctionMocks.ReturningFunctionMock.RecordCallAndReturnOrThrow | Mokka/Tests/FunctionMock/ReturningFunctionMockTests.swift:145-184 | records the call whether or not it throws; throws iff an error is configured, with that error; otherwise returns the resolved value |
| ReturningFunctionMocks.ReturningFunctionMock.Returns | Mokka/Sources/FunctionMock/ReturningFunctionMock.swift:87-90 | appends exactly one static stub with the given condition; earlier stubs and their order are unchanged |
| ReturningFunctionMocks.ReturningFunctionMock.ReturnsHandler | Mokka/Sources/FunctionMock/ReturningFunctionMock.swift:97-99 | appends exactly one unconditional handler stub |
| ReturningFunctionMocks.ReturningFunctionMock.ReturnsHandlerWhen | Mokka/Sources/FunctionMock/ReturningFunctionMock.swift:111-114 | appends exactly one handler stub with the given condition |
| PropertyMocks.PropertyMock.constructor | Mokka/Sources/PropertyMock/PropertyMock.swift:55-76 | a new mock has the given name, no value and both flags false |
| PropertyMocks.PropertyMock.Get | Mokka/Sources/PropertyMock/PropertyMock.swift:84-95 | requires a value; marks the read and returns the stored value; value and `hasBeenSet` unchanged |
| PropertyMocks.PropertyMock.Set | Mokka/Sources/PropertyMock/PropertyMock.swift:106-109 | marks the write and stores the new value; `hasBeenRead` unchanged |
| PropertyMocks.PropertyMock.Reset | Mokka/Sources/PropertyMock/PropertyMock.swift:113-117 | no value and both flags false; the name stays |
| PropertyMocks.SetThenGet | Mokka/Tests/PropertyMock/PropertyMockTests.swift:44-47 | on every property mock, `set(v)` followed by `get()` returns `v` and leaves both flags set |
| PropertyMocks.GetAndSetKeepFlags | Mokka/Sources/PropertyMock/PropertyMock.swift:84-109 | a read followed by a write returns the value stored before the write, and both flags are raised afterwards |
| LegacyFunctionMocks.LegacyFunctionMock.constructor | Mokka/FunctionMock/FunctionMock.swift:26-43 | a new mock has the given, required name, count 0, no arguments and no stub block |
| LegacyFunctionMocks.GettersDescribeCalls | Mokka/FunctionMock/FunctionMock.swift:30-39 | `called` iff a call since the last reset, `calledOnce` iff exactly one, `argument` equals the last call's arguments |
| LegacyFunctionMocks.LegacyFunctionMock.Stub | Mokka/FunctionMock/FunctionMock.swift:47-49 | the single stub-block slot now holds the new block |
| LegacyFunctionMocks.LegacyFunctionMock.RecordCall | Mokka/FunctionMock/FunctionMock.swift:51-58 | the count grows by one, `arguments` becomes the new arguments, and the current stub block, if any, is invoked with them |
| LegacyFunctionMocks.LegacyFunctionMock.Reset | Mokka/FunctionMock/FunctionMock.swift:60-63 | count 0 and no arguments; the stub block stays; there is no error state to clear |
| LegacyFunctionMocks.RecordCallWithoutArguments | Mokka/FunctionMock/FunctionMock.swift:67-70 | behaves exactly as `RecordCall(())` |
| LegacyFunctionMocks.RecordCallOnBoth | Mokka/FunctionMock/FunctionMock.swift:51-58 | recording the same call on the legacy and the current mock keeps their count, arguments, history and stub block equal |
| LegacyFunctionMocks.ResetBoth | Mokka/FunctionMock/FunctionMock.swift:60-63 | both resets agree on count, arguments and stub block; only the current variant also clears an error |
| Scenarios.CallAccounting | Mokka/Tests/FunctionMock/FunctionMockTests.swift:39-114 | count 0 before any call; after calls with "foo" and "bar": count 2, called, not called once, argument "bar" |
| Scenarios.StubBlockRuns | Mokka/Tests/FunctionMock/FunctionMockTests.swift:118-128 | for any installed block, one call with "foo" counts once and invokes exactly that block once, with "foo" |
| Scenarios.ThrowingUntilReset | Mokka/Tests/FunctionMock/FunctionMockTests.swift:136-185 | a configured error is thrown by every call, calls are still counted and captured, and after a reset nothing is thrown |
| Scenarios.CallsWithoutArguments | Mokka/Tests/FunctionMock/FunctionMockTests.swift:189-199 | the parameterless overloads count calls and do not throw |
| Scenarios.StaticStub | Mokka/Tests/FunctionMock/ReturningFunctionMockTests.swift:94-98 | after `returns(42)`, a call with "abc" returns 42, with count 1 and argument "abc" |
| Scenarios.DefaultValue | Mokka/Tests/FunctionMock/ReturningFunctionMockTests.swift:88-92 | with no stubs, the default value 42 is returned |
| Scenarios.DynamicStub | Mokka/Tests/FunctionMock/ReturningFunctionMockTests.swift:100-106 | a handler stub returns 42 for "foo" and 66 for "bar" |
| Scenarios.FirstOfSeveralMatches | Mokka/Tests/FunctionMock/ReturningFunctionMockTests.swift:108-113 | with `returns(42)` then `returns(66)`, a call returns 42 |
| Scenarios.ConditionalStubs | Mokka/Tests/FunctionMock/ReturningFunctionMockTests.swift:117-143 | stubs for "foo" then "bar" return 42 for "bar" and 66 for "foo"; "baz" resolves to no value until a default (7) is set, and then to that default |
| Scenarios.ConditionalHandler | Mokka/Tests/FunctionMock/ReturningFunctionMockTests.swift:131-136 | a handler stub with a condition supplies 42 for "foo"; "bar" falls back to the default |
| Scenarios.ReturnOrThrow | Mokka/Tests/FunctionMock/ReturningFunctionMockTests.swift:147-184 | with an error configured, both calls throw it and are both counted, the last argument kept; after a reset and `returns(42)` the call returns 42 |
| Scenarios.ResetReturningMock | Mokka/Tests/FunctionMock/ReturningFunctionMockTests.swift:188-236 | after a reset: count 0, no arguments, no default value and no stubs; the error is cleared too, so `recordCallAndReturnOrThrow` returns the new default 0 instead of throwing |
| Scenarios.PropertyLifecycle | Mokka/Tests/PropertyMock/PropertyMockTests.swift:39-89 | a directly assigned value is returned by `get` with only the read flag set; `set` stores its value; reset clears value and flags |

## Left out

- FunctionMocks.FunctionMock.RecordCall: `callCount` is an unbounded `nat`; Swift's trap when `callCount += 1` overflows `Int` is not modelled, since it needs 2^63 calls. The same holds for `LegacyFunctionMocks.LegacyFunctionMock.RecordCall` and every method that records a call.
- Side effects of stub blocks, handlers and conditions are not modelled: they are pure functions here. A block that mutates captured state, as the example tests do, is seen only through the ghost log `stubCalls`.
- The diagnostic text of the precondition failures, which includes the recorder's name, is not modelled. Only the precondition itself is.
- Swift's dynamic `Error` existential is an abstract type parameter `E`.
- Access control (`private(set)` on `callCount`, `arguments`, the flags and `stubs`) is not modelled; the classes document which methods change which fields.
- The example application (`Car`, `Engine`, `Battery`, `Foo`, `Bar`), its hand-written fakes, `Package.swift`, the test-error fixture and the XCTest plumbing are not part of this model. The tests are used only as the source of the properties stated in `Scenarios`.
