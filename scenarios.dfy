/** The library's own test cases, replayed against the model: each method builds
    fresh mocks, drives them as the test does and states what the test asserts. */
module Scenarios {
  import opened Wrappers
  import opened FunctionMocks
  import opened ReturningFunctionMocks
  import opened PropertyMocks
  import opened LegacyFunctionMocks

  /** Call counting and argument capture: nothing before the first call, the
      last call's arguments after two calls. */
  method CallAccounting() returns (before: nat, after: nat, called: bool, calledOnce: bool, argument: Option<string>)
    ensures before == 0 && after == 2
    ensures called && !calledOnce
    ensures argument == Some("bar")
  {
    var m := new FunctionMock<string, string>(Some("test(foo:)"));
    before := m.callCount;
    assert !m.Called() && m.Argument() == None;
    m.RecordCall("foo");
    assert m.CalledOnce() && m.Argument() == Some("foo");
    m.RecordCall("bar");
    after, called, calledOnce, argument := m.callCount, m.Called(), m.CalledOnce(), m.Argument();
  }

  /** The stub block runs once, with the call's arguments. */
  method StubBlockRuns(block: string -> ()) returns (count: nat, ghost invocations: seq<StubCall<string>>)
    ensures count == 1
    ensures invocations == [StubCall(block, "foo")]
  {
    var m := new FunctionMock<string, string>(Some("test(foo:)"));
    m.Stub(block);
    m.RecordCall("foo");
    count, invocations := m.callCount, m.stubCalls;
  }

  /** A configured error is thrown on every call, the calls are still counted and
      captured, and a reset stops the throwing. */
  method ThrowingUntilReset() returns (first: Outcome<string>, second: Outcome<string>, count: nat, argument: Option<string>, afterReset: Outcome<string>)
    ensures first == Fail("errorOne") && second == Fail("errorOne")
    ensures count == 2 && argument == Some("bar")
    ensures afterReset == Pass
  {
    var m := new FunctionMock<string, string>(Some("test(foo:)"));
    m.Throws("errorOne");
    first := m.RecordCallAndThrow("foo");
    second := m.RecordCallAndThrow("bar");
    count, argument := m.callCount, m.arguments;
    m.Reset();
    afterReset := m.RecordCallAndThrow("foo");
  }

  /** The parameterless overloads count a call. */
  method CallsWithoutArguments() returns (count: nat, outcome: Outcome<string>, legacyCount: nat)
    ensures count == 2 && outcome == Pass && legacyCount == 1
  {
    var m := new FunctionMock<(), string>(Some("test()"));
    FunctionMocks.RecordCallWithoutArguments(m);
    outcome := RecordCallAndThrowWithoutArguments(m);
    count := m.callCount;
    var l := new LegacyFunctionMock<()>("test()");
    LegacyFunctionMocks.RecordCallWithoutArguments(l);
    legacyCount := l.callCount;
  }

  /** A static stub is returned for any argument, and the call is recorded first. */
  method StaticStub() returns (r: int, count: nat, argument: Option<string>)
    ensures r == 42 && count == 1 && argument == Some("abc")
  {
    var m := new ReturningFunctionMock<string, int, string>(Some("doSomething(arg:)"));
    m.Returns(42, None);
    r := m.RecordCallAndReturn("abc");
    count, argument := m.base.callCount, m.base.arguments;
  }

  /** With no stubs, the default value is returned. */
  method DefaultValue() returns (r: int)
    ensures r == 42
  {
    var m := new ReturningFunctionMock<string, int, string>(Some("test(foo:)"));
    m.defaultReturnValue := Some(42);
    r := m.RecordCallAndReturn("foo");
  }

  /** A handler stub computes its value from the arguments of each call. */
  method DynamicStub() returns (onFoo: int, onBar: int)
    ensures onFoo == 42 && onBar == 66
  {
    var m := new ReturningFunctionMock<string, int, string>(Some("test(foo:)"));
    m.ReturnsHandler((arg: string) => if arg == "foo" then 42 else 66);
    onFoo := m.RecordCallAndReturn("foo");
    onBar := m.RecordCallAndReturn("bar");
  }

  /** When several stubs handle a call, the one added first wins. */
  method FirstOfSeveralMatches() returns (r: int)
    ensures r == 42
  {
    var m := new ReturningFunctionMock<string, int, string>(Some("test(foo:)"));
    m.Returns(42, None);
    m.Returns(66, None);
    r := m.RecordCallAndReturn("foo");
  }

  /** Conditional stubs: a stub whose condition fails is skipped in favour of the
      next one or of the default value; with neither, the call is not allowed. */
  method ConditionalStubs() returns (onBar: int, onFoo: int, onBaz: Option<int>, withDefault: int)
    ensures onBar == 42 && onFoo == 66
    ensures onBaz == None
    ensures withDefault == 7
  {
    var m := new ReturningFunctionMock<string, int, string>(Some("test(foo:)"));
    m.Returns(66, Some((x: string) => x == "foo"));
    m.Returns(42, Some((x: string) => x == "bar"));
    assert m.stubs[1].ShouldHandle("bar");
    onBar := m.RecordCallAndReturn("bar");
    onFoo := m.RecordCallAndReturn("foo");
    assert |m.stubs| == 2 && !m.stubs[0].ShouldHandle("baz") && !m.stubs[1].ShouldHandle("baz");
    onBaz := Resolve(m.stubs, m.defaultReturnValue, "baz");
    m.defaultReturnValue := Some(7);
    withDefault := m.RecordCallAndReturn("baz");
  }

  /** A conditional handler stub is used when its condition holds. */
  method ConditionalHandler() returns (onFoo: int, onBar: int)
    ensures onFoo == 42 && onBar == 0
  {
    var m := new ReturningFunctionMock<string, int, string>(Some("test(foo:)"));
    m.defaultReturnValue := Some(0);
    m.ReturnsHandlerWhen((arg: string) => 10 + 32, Some((x: string) => x == "foo"));
    onFoo := m.RecordCallAndReturn("foo");
    onBar := m.RecordCallAndReturn("bar");
  }

  /** `recordCallAndReturnOrThrow` records calls and captures arguments both when it
      throws and when it returns. */
  method ReturnOrThrow() returns (first: Result<int, string>, second: Result<int, string>, count: nat, argument: Option<string>, returned: Result<int, string>)
    ensures first == Failure("errorOne") && second == Failure("errorOne")
    ensures count == 2 && argument == Some("bar")
    ensures returned == Success(42)
  {
    var m := new ReturningFunctionMock<string, int, string>(Some("test(foo:)"));
    m.base.Throws("errorOne");
    first := m.RecordCallAndReturnOrThrow("foo");
    second := m.RecordCallAndReturnOrThrow("bar");
    count, argument := m.base.callCount, m.base.arguments;
    m.Reset();
    m.Returns(42, None);
    returned := m.RecordCallAndReturnOrThrow("foo");
  }

  /** A reset removes the recorded calls, the default value, the stubs and the error. */
  method ResetReturningMock() returns (count: nat, argument: Option<string>, defaultValue: Option<int>, stubCount: nat, r: Result<int, string>)
    ensures count == 0 && argument == None
    ensures defaultValue == None && stubCount == 0
    ensures r == Success(0)
  {
    var m := new ReturningFunctionMock<string, int, string>(Some("test(foo:)"));
    m.Returns(42, None);
    m.ReturnsHandler((arg: string) => 10 + 20);
    m.defaultReturnValue := Some(42);
    m.base.Throws("errorOne");
    m.base.RecordCall("foo");
    m.Reset();
    count, argument := m.base.callCount, m.base.arguments;
    defaultValue, stubCount := m.defaultReturnValue, |m.stubs|;
    m.defaultReturnValue := Some(0);
    r := m.RecordCallAndReturnOrThrow("foo");
  }

  /** Property mock: a value arranged directly is returned by the getter without
      marking a write; the setter stores a value; a reset clears everything. */
  method PropertyLifecycle() returns (got: real, readFlag: bool, setFlag: bool, stored: Option<real>, afterReset: Option<real>, flagsAfterReset: bool)
    ensures got == 90.0 && readFlag && !setFlag
    ensures stored == Some(40.0)
    ensures afterReset == None && !flagsAfterReset
  {
    var p := new PropertyMock<real>(Some("capacity"));
    assert !p.hasBeenRead && !p.hasBeenSet;
    p.value := Some(90.0);
    got := p.Get();
    readFlag, setFlag := p.hasBeenRead, p.hasBeenSet;
    p.Set(40.0);
    stored := p.value;
    p.Reset();
    afterReset, flagsAfterReset := p.value, p.hasBeenRead || p.hasBeenSet;
  }
}
