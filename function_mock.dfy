/** The call recorder for a mocked function: counts calls, keeps the arguments of
    the last call, runs an optional side-effect block and can be told to throw. */
module FunctionMocks {
  import opened Wrappers

  /** The last element of a call history, or `None` when nothing was called. */
  function Last<Args>(calls: seq<Args>): (last: Option<Args>)
  {
    if calls == [] then None else Some(calls[|calls| - 1])
  }

  /** One invocation of the side-effect block installed with `stub`. */
  datatype StubCall<!Args> = StubCall(block: Args -> (), args: Args)

  /** `FunctionMock<Args>`. The error type `E` stands for Swift's `Error`. */
  class FunctionMock<Args, E> {
    /** The mocked function's name, for diagnostics only; fixed at creation. */
    const name: Option<string>

    var callCount: nat
    var arguments: Option<Args>
    var stubBlock: Option<Args -> ()>
    var error: Option<E>

    /** The arguments of every call recorded since creation or the last reset. */
    ghost var calls: seq<Args>
    /** Every invocation of a stub block, in order. */
    ghost var stubCalls: seq<StubCall<Args>>

    /** The count and the captured arguments describe the calls since the last reset. */
    ghost predicate Valid()
      reads this
    {
      callCount == |calls| && arguments == Last(calls)
    }

    constructor (name: Option<string>)
      ensures Valid() && this.name == name
      ensures callCount == 0 && arguments == None && calls == []
      ensures stubBlock == None && error == None && stubCalls == []
    {
      this.name := name;
      callCount := 0;
      arguments := None;
      stubBlock := None;
      error := None;
      calls := [];
      stubCalls := [];
    }

    /** True iff the function has been called at least once. */
    predicate Called()
      reads this
    {
      callCount >= 1
    }

    /** True iff the function has been called exactly once. */
    predicate CalledOnce()
      reads this
    {
      callCount == 1
    }

    /** The single-argument spelling of `arguments`. */
    function Argument(): Option<Args>
      reads this
    {
      arguments
    }

    /** Installs `block` as the one side effect run by every recorded call,
        replacing whatever block was there before. */
    method Stub(block: Args -> ())
      modifies this`stubBlock
      ensures stubBlock == Some(block)
    {
      stubBlock := Some(block);
    }

    /** Counts the call, captures its arguments (the last call wins) and then runs
        the stub block, if any, with the same arguments. */
    method RecordCall(args: Args)
      requires Valid()
      modifies this`callCount, this`arguments, this`calls, this`stubCalls
      ensures Valid()
      ensures callCount == old(callCount) + 1 && arguments == Some(args)
      ensures calls == old(calls) + [args]
      ensures stubCalls == old(stubCalls) +
        (if stubBlock.Some? then [StubCall(stubBlock.value, args)] else [])
    {
      callCount := callCount + 1;
      arguments := Some(args);
      calls := calls + [args];
      if stubBlock.Some? {
        // The block is a pure function here; its invocation is what the log records.
        stubCalls := stubCalls + [StubCall(stubBlock.value, args)];
      }
    }

    /** Records the call exactly as `RecordCall` does, then throws the configured
        error if there is one. */
    method RecordCallAndThrow(args: Args) returns (outcome: Outcome<E>)
      requires Valid()
      modifies this`callCount, this`arguments, this`calls, this`stubCalls
      ensures Valid()
      ensures callCount == old(callCount) + 1 && arguments == Some(args)
      ensures calls == old(calls) + [args]
      ensures stubCalls == old(stubCalls) +
        (if stubBlock.Some? then [StubCall(stubBlock.value, args)] else [])
      ensures outcome.Fail? <==> error.Some?
      ensures outcome.Fail? ==> outcome.error == error.value
    {
      RecordCall(args);
      if error.Some? {
        outcome := Fail(error.value);
      } else {
        outcome := Pass;
      }
    }

    /** `throws(_:)`: every later `RecordCallAndThrow` throws `e`, until a reset. */
    method Throws(e: E)
      modifies this`error
      ensures error == Some(e)
    {
      error := Some(e);
    }

    /** Forgets the calls and the configured error; the name and the stub block stay. */
    method Reset()
      modifies this`callCount, this`arguments, this`error, this`calls
      ensures Valid()
      ensures callCount == 0 && arguments == None && error == None && calls == []
    {
      callCount := 0;
      arguments := None;
      error := None;
      calls := [];
    }
  }

  /** The derived getters in terms of the calls since the last reset: `called` means
      at least one call, `calledOnce` exactly one, and `argument` is the last call's. */
  lemma GettersDescribeCalls<Args, E>(m: FunctionMock<Args, E>)
    requires m.Valid()
    ensures m.Called() <==> m.calls != []
    ensures m.CalledOnce() <==> |m.calls| == 1
    ensures m.Argument() == m.arguments == Last(m.calls)
  {
  }

  /** `recordCall()` for a function without parameters: `recordCall(())`. */
  method RecordCallWithoutArguments<E>(m: FunctionMock<(), E>)
    requires m.Valid()
    modifies m`callCount, m`arguments, m`calls, m`stubCalls
    ensures m.Valid()
    ensures m.callCount == old(m.callCount) + 1 && m.arguments == Some(())
    ensures m.calls == old(m.calls) + [()]
    ensures m.stubCalls == old(m.stubCalls) +
      (if m.stubBlock.Some? then [StubCall(m.stubBlock.value, ())] else [])
  {
    m.RecordCall(());
  }

  /** `recordCallAndThrow()` for a function without parameters. */
  method RecordCallAndThrowWithoutArguments<E>(m: FunctionMock<(), E>) returns (outcome: Outcome<E>)
    requires m.Valid()
    modifies m`callCount, m`arguments, m`calls, m`stubCalls
    ensures m.Valid()
    ensures m.callCount == old(m.callCount) + 1 && m.arguments == Some(())
    ensures m.calls == old(m.calls) + [()]
    ensures m.stubCalls == old(m.stubCalls) +
      (if m.stubBlock.Some? then [StubCall(m.stubBlock.value, ())] else [])
    ensures outcome.Fail? <==> m.error.Some?
    ensures outcome.Fail? ==> outcome.error == m.error.value
  {
    outcome := m.RecordCallAndThrow(());
  }
}
