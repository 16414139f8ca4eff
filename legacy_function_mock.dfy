/** The older call recorder: a required name, no configurable error, and a reset
    that forgets only the calls. */
module LegacyFunctionMocks {
  import opened Wrappers
  import opened FunctionMocks

  /** The older `FunctionMock<Args>`. */
  class LegacyFunctionMock<!Args> {
    /** The mocked function's name; required and fixed at creation. */
    const name: string

    var callCount: nat
    var arguments: Option<Args>
    var stubBlock: Option<Args -> ()>

    /** The arguments of every call recorded since creation or the last reset. */
    ghost var calls: seq<Args>
    /** Every invocation of a stub block, in order. */
    ghost var stubCalls: seq<StubCall<Args>>

    ghost predicate Valid()
      reads this
    {
      callCount == |calls| && arguments == Last(calls)
    }

    constructor (name: string)
      ensures Valid() && this.name == name
      ensures callCount == 0 && arguments == None && calls == []
      ensures stubBlock == None && stubCalls == []
    {
      this.name := name;
      callCount := 0;
      arguments := None;
      stubBlock := None;
      calls := [];
      stubCalls := [];
    }

    predicate Called()
      reads this
    {
      callCount >= 1
    }

    predicate CalledOnce()
      reads this
    {
      callCount == 1
    }

    function Argument(): Option<Args>
      reads this
    {
      arguments
    }

    /** Installs `block` as the one side effect, replacing the previous one. */
    method Stub(block: Args -> ())
      modifies this`stubBlock
      ensures stubBlock == Some(block)
    {
      stubBlock := Some(block);
    }

    /** Counts the call, captures its arguments, then runs the stub block, if any. */
    method RecordCall(args: Args)
      requires Valid()
      modifies this`callCount, this`arguments, this`calls, this`stubCalls
      ensures Valid()
      ensures callCount == old(callCount) + 1 && arguments == Some(args)
      ensures calls == old(calls) + [args]
      ensures stubCalls == old(stubCalls) +
        (if stubBlock.Some? then [StubCall(stubBlock.value, args)] else [])
    {
      callCount := callCount + 1;
      arguments := Some(args);
      calls := calls + [args];
      if stubBlock.Some? {
        // The block is a pure function here; its invocation is what the log records.
        stubCalls := stubCalls + [StubCall(stubBlock.value, args)];
      }
    }

    /** Forgets the count and the arguments; the stub block stays. */
    method Reset()
      modifies this`callCount, this`arguments, this`calls
      ensures Valid()
      ensures callCount == 0 && arguments == None && calls == []
    {
      callCount := 0;
      arguments := None;
      calls := [];
    }
  }

  /** `called`, `calledOnce` and `argument` in terms of the calls since the last reset. */
  lemma GettersDescribeCalls<Args>(m: LegacyFunctionMock<Args>)
    requires m.Valid()
    ensures m.Called() <==> m.calls != []
    ensures m.CalledOnce() <==> |m.calls| == 1
    ensures m.Argument() == m.arguments == Last(m.calls)
  {
  }

  /** `recordCall()` for a function without parameters: `recordCall(())`. */
  method RecordCallWithoutArguments(m: LegacyFunctionMock<()>)
    requires m.Valid()
    modifies m`callCount, m`arguments, m`calls, m`stubCalls
    ensures m.Valid()
    ensures m.callCount == old(m.callCount) + 1 && m.arguments == Some(())
    ensures m.calls == old(m.calls) + [()]
    ensures m.stubCalls == old(m.stubCalls) +
      (if m.stubBlock.Some? then [StubCall(m.stubBlock.value, ())] else [])
  {
    m.RecordCall(());
  }

  /** The two variants agree on everything a test can inspect about calls. */
  ghost predicate SameRecording<Args, E>(current: FunctionMock<Args, E>, legacy: LegacyFunctionMock<Args>)
    reads current, legacy
  {
    current.callCount == legacy.callCount && current.arguments == legacy.arguments
    && current.calls == legacy.calls && current.stubBlock == legacy.stubBlock
  }

  /** Recording the same call on both variants keeps them in agreement. */
  method RecordCallOnBoth<Args, E>(current: FunctionMock<Args, E>, legacy: LegacyFunctionMock<Args>, args: Args)
    requires current.Valid() && legacy.Valid() && SameRecording(current, legacy)
    modifies current`callCount, current`arguments, current`calls, current`stubCalls
    modifies legacy`callCount, legacy`arguments, legacy`calls, legacy`stubCalls
    ensures current.Valid() && legacy.Valid() && SameRecording(current, legacy)
    ensures current.Called() == legacy.Called() && current.CalledOnce() == legacy.CalledOnce()
  {
    current.RecordCall(args);
    legacy.RecordCall(args);
  }

  /** Resetting both variants keeps them in agreement, stub block included; only
      the current variant has an error to clear. */
  method ResetBoth<Args, E>(current: FunctionMock<Args, E>, legacy: LegacyFunctionMock<Args>)
    requires SameRecording(current, legacy)
    modifies current`callCount, current`arguments, current`error, current`calls
    modifies legacy`callCount, legacy`arguments, legacy`calls
    ensures current.Valid() && legacy.Valid() && SameRecording(current, legacy)
    ensures current.stubBlock == old(current.stubBlock) && current.error == None
  {
    current.Reset();
    legacy.Reset();
  }
}
