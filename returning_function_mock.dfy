/** The call recorder for a function that returns a value: an ordered list of
    (optionally conditional) stubs and a default value decide what a call returns. */
module ReturningFunctionMocks {
  import opened Wrappers
  import opened FunctionMocks

  /** How a stub produces its value: a stored constant or a handler over the arguments. */
  datatype Mode<!Args, R> = StaticReturnValue(returnValue: R) | Handler(handler: Args -> R)

  /** `FunctionStub`: a return value rule with an optional condition on the arguments. */
  datatype FunctionStub<!Args, R> = FunctionStub(mode: Mode<Args, R>, condition: Option<Args -> bool>)
  {
    /** A stub without a condition handles every call. */
    predicate ShouldHandle(args: Args)
    {
      match condition
      case None => true
      case Some(c) => c(args)
    }

    function Handle(args: Args): R
    {
      match mode
      case StaticReturnValue(v) => v
      case Handler(h) => h(args)
    }
  }

  /** `stubs.first(where: { $0.shouldHandle(args) })`, given as the position of the
      first stub, in insertion order, that handles `args`. */
  function FirstMatch<Args, R>(stubs: seq<FunctionStub<Args, R>>, args: Args): (r: Option<nat>)
    ensures r.Some? ==> r.value < |stubs| && stubs[r.value].ShouldHandle(args)
    ensures r.Some? ==> forall j :: 0 <= j < r.value ==> !stubs[j].ShouldHandle(args)
    ensures r.None? <==> forall j :: 0 <= j < |stubs| ==> !stubs[j].ShouldHandle(args)
  {
    if stubs == [] then None
    else if stubs[0].ShouldHandle(args) then Some(0)
    else
      match FirstMatch(stubs[1..], args)
      case None => None
      case Some(i) => Some(i + 1)
  }

  /** The value `recordCallAndReturn` returns for `args`: the first handling stub's
      value, else the default; `None` when neither exists, the case in which the
      source stops with a precondition failure. */
  function Resolve<Args, R>(stubs: seq<FunctionStub<Args, R>>, defaultReturnValue: Option<R>, args: Args): (r: Option<R>)
    ensures forall i :: 0 <= i < |stubs| && stubs[i].ShouldHandle(args)
                        && (forall j :: 0 <= j < i ==> !stubs[j].ShouldHandle(args))
                        ==> r == Some(stubs[i].Handle(args))
    ensures (forall i :: 0 <= i < |stubs| ==> !stubs[i].ShouldHandle(args)) ==> r == defaultReturnValue
    ensures r.None? <==> defaultReturnValue.None? && forall i :: 0 <= i < |stubs| ==> !stubs[i].ShouldHandle(args)
  {
    match FirstMatch(stubs, args)
    case Some(i) => Some(stubs[i].Handle(args))
    case None => defaultReturnValue
  }

  /** A second reading of resolution, as a front-to-back scan that falls back to
      the default at the end of the list. */
  function Scan<Args, R>(stubs: seq<FunctionStub<Args, R>>, defaultReturnValue: Option<R>, args: Args): (r: Option<R>)
  {
    if stubs == [] then defaultReturnValue
    else if stubs[0].ShouldHandle(args) then Some(stubs[0].Handle(args))
    else Scan(stubs[1..], defaultReturnValue, args)
  }

  /** The scan and the first-match search agree on every input. */
  lemma {:induction false} ResolveIsScan<Args, R>(stubs: seq<FunctionStub<Args, R>>, defaultReturnValue: Option<R>, args: Args)
    ensures Resolve(stubs, defaultReturnValue, args) == Scan(stubs, defaultReturnValue, args)
  {
    if stubs != [] && !stubs[0].ShouldHandle(args) {
      ResolveIsScan(stubs[1..], defaultReturnValue, args);
      var rest := stubs[1..];
      match FirstMatch(rest, args)
      case None =>
        assert forall i :: 0 <= i < |stubs| ==> !stubs[i].ShouldHandle(args) by {
          forall i | 0 <= i < |stubs| ensures !stubs[i].ShouldHandle(args) {
            if i > 0 { assert stubs[i] == rest[i - 1]; }
          }
        }
      case Some(k) =>
        assert stubs[k + 1] == rest[k];
        forall j | 0 <= j < k + 1 ensures !stubs[j].ShouldHandle(args) {
          if j > 0 { assert stubs[j] == rest[j - 1]; }
        }
    }
  }

  /** Adding a stub at the end: the first match of the longer list is the old first
      match if there was one, else the new stub if it handles `args`. */
  lemma {:induction false} FirstMatchAfterAppend<Args, R>(stubs: seq<FunctionStub<Args, R>>, stub: FunctionStub<Args, R>, args: Args)
    ensures FirstMatch(stubs + [stub], args) ==
      if FirstMatch(stubs, args).Some? then FirstMatch(stubs, args)
      else if stub.ShouldHandle(args) then Some(|stubs|)
      else None
  {
    var longer := stubs + [stub];
    assert forall j :: 0 <= j < |stubs| ==> longer[j] == stubs[j];
    assert longer[|stubs|] == stub;
  }

  /** `returns` never changes what an already handled call resolves to: a later stub
      only takes effect for arguments no earlier stub handles. */
  lemma ResolveAfterAppend<Args, R>(stubs: seq<FunctionStub<Args, R>>, stub: FunctionStub<Args, R>, defaultReturnValue: Option<R>, args: Args)
    ensures Resolve(stubs + [stub], defaultReturnValue, args) ==
      if FirstMatch(stubs, args).Some? then Resolve(stubs, defaultReturnValue, args)
      else if stub.ShouldHandle(args) then Some(stub.Handle(args))
      else defaultReturnValue
  {
    FirstMatchAfterAppend(stubs, stub, args);
    assert (stubs + [stub])[|stubs|] == stub;
  }

  /** Of two stubs that both handle `args`, the one added first wins. */
  lemma EarlierStubWins<Args, R>(first: FunctionStub<Args, R>, second: FunctionStub<Args, R>, defaultReturnValue: Option<R>, args: Args)
    requires first.ShouldHandle(args)
    ensures Resolve([first, second], defaultReturnValue, args) == Some(first.Handle(args))
  {
  }

  /** A static stub returns its stored value whatever the arguments; a handler stub
      returns the handler applied to the arguments. */
  lemma HandleByMode<Args, R>(stub: FunctionStub<Args, R>, a: Args, b: Args)
    ensures stub.mode.StaticReturnValue? ==> stub.Handle(a) == stub.Handle(b) == stub.mode.returnValue
    ensures stub.mode.Handler? ==> stub.Handle(a) == stub.mode.handler(a)
  {
  }

  /** `ReturningFunctionMock<Args, ReturnValue>`. Swift's subclassing of
      `FunctionMock` is modelled by composition: `base` holds the inherited state. */
  class ReturningFunctionMock<!Args, R, E> {
    const base: FunctionMock<Args, E>
    var stubs: seq<FunctionStub<Args, R>>
    var defaultReturnValue: Option<R>

    ghost predicate Valid()
      reads this, base
    {
      base.Valid()
    }

    constructor (name: Option<string>)
      ensures Valid() && fresh(base) && base.name == name
      ensures base.callCount == 0 && base.arguments == None && base.calls == []
      ensures base.stubBlock == None && base.error == None && base.stubCalls == []
      ensures stubs == [] && defaultReturnValue == None
    {
      base := new FunctionMock(name);
      stubs := [];
      defaultReturnValue := None;
    }

    /** The base reset, and then the default value and every stub are removed. */
    method Reset()
      modifies this`stubs, this`defaultReturnValue
      modifies base`callCount, base`arguments, base`error, base`calls
      ensures Valid()
      ensures base.callCount == 0 && base.arguments == None && base.error == None && base.calls == []
      ensures stubs == [] && defaultReturnValue == None
    {
      base.Reset();
      defaultReturnValue := None;
      stubs := [];
    }

    /** Records the call first, then returns the value of the first stub that
        handles `args`, or else the default value. Calling it when neither exists
        is a precondition failure in the source. */
    method RecordCallAndReturn(args: Args) returns (r: R)
      requires Valid()
      requires Resolve(stubs, defaultReturnValue, args).Some?
      modifies base`callCount, base`arguments, base`calls, base`stubCalls
      ensures Valid()
      ensures base.callCount == old(base.callCount) + 1 && base.arguments == Some(args)
      ensures base.calls == old(base.calls) + [args]
      ensures base.stubCalls == old(base.stubCalls) +
        (if base.stubBlock.Some? then [StubCall(base.stubBlock.value, args)] else [])
      ensures Some(r) == Resolve(stubs, defaultReturnValue, args)
    {
      base.RecordCall(args);
      match FirstMatch(stubs, args)
      case Some(i) =>
        r := stubs[i].Handle(args);
      case None =>
        r := defaultReturnValue.value;
    }

    /** Records the call whether or not it throws; then throws the configured error
        if there is one, and otherwise resolves a value as `RecordCallAndReturn`. */
    method RecordCallAndReturnOrThrow(args: Args) returns (result: Result<R, E>)
      requires Valid()
      requires base.error.Some? || Resolve(stubs, defaultReturnValue, args).Some?
      modifies base`callCount, base`arguments, base`calls, base`stubCalls
      ensures Valid()
      ensures base.callCount == old(base.callCount) + 1 && base.arguments == Some(args)
      ensures base.calls == old(base.calls) + [args]
      ensures base.stubCalls == old(base.stubCalls) +
        (if base.stubBlock.Some? then [StubCall(base.stubBlock.value, args)] else [])
      ensures result.Failure? <==> base.error.Some?
      ensures result.Failure? ==> result.error == base.error.value
      ensures result.Success? ==> Some(result.value) == Resolve(stubs, defaultReturnValue, args)
    {
      var outcome := base.RecordCallAndThrow(args);
      if outcome.Fail? {
        result := Failure(outcome.error);
      } else {
        var v := Resolve(stubs, defaultReturnValue, args);
        result := Success(v.value);
      }
    }

    /** `returns(_ returnValue:, when:)`: appends a static stub at the end. */
    method Returns(returnValue: R, condition: Option<Args -> bool>)
      modifies this`stubs
      ensures stubs == old(stubs) + [FunctionStub(StaticReturnValue(returnValue), condition)]
    {
      stubs := stubs + [FunctionStub(StaticReturnValue(returnValue), condition)];
    }

    /** `returns(_ handler:)`: appends an unconditional handler stub. */
    method ReturnsHandler(handler: Args -> R)
      modifies this`stubs
      ensures stubs == old(stubs) + [FunctionStub(Handler(handler), None)]
    {
      ReturnsHandlerWhen(handler, None);
    }

    /** `returns(_ handler:, when:)`: appends a handler stub at the end. */
    method ReturnsHandlerWhen(handler: Args -> R, condition: Option<Args -> bool>)
      modifies this`stubs
      ensures stubs == old(stubs) + [FunctionStub(Handler(handler), condition)]
    {
      stubs := stubs + [FunctionStub(Handler(handler), condition)];
    }
  }
}
