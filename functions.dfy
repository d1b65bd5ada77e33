/** src/functions.cpp: `executeFunction` on a cache or region with a
    streamed result.  The call returns an EventEmitter at once; results
    arrive as "data" events, a failure as an "error" event, and the end of
    the stream as an "end" event. */
module Functions {
  import opened Common
  import opened Codec
  import opened Runtime
  import opened ResultStreams

  const NameRequired := "You must provide the name of a function to execute."
  const FilterNotArray := "You must pass an Array of keys as the filter for executeFunction()."
  const BadOptions := "You must pass either an Array of arguments or an options Object to executeFunction()."

  /** What a successful call hands the worker: the function's name, its
      encoded arguments (the null pointer for none) and its encoded filter
      keys, if any. */
  datatype FunctionRequest = FunctionRequest(functionName: seq<CodeUnit>, functionArguments: NativeValue,
                                             functionFilter: Option<seq<NativeValue>>)

  datatype ParsedCall = Rejected(message: string) | Accepted(request: FunctionRequest)

  /** The request built from the arguments and filter the options gave;
      `None` is a value the options did not give at all.  Undefined
      arguments and filters are dropped; a filter is an array by now. */
  function Request(functionName: seq<CodeUnit>, arguments: Option<HostValue>, filter: Option<HostValue>): FunctionRequest {
    FunctionRequest(
      functionName,
      if arguments.None? || IsUndefined(arguments.value) then NullPtr else Encode(arguments.value),
      if filter.Some? && IsArray(filter.value)
      then Some(seq(|filter.value.elements|, i requires 0 <= i < |filter.value.elements| => Encode(filter.value.elements[i])))
      else None)
  }

  /** The checks and option parsing of `executeFunction`. */
  function ParseExecuteFunction(args: seq<HostValue>): (p: ParsedCall)
    ensures p == Rejected(NameRequired) <==> |args| == 0 || !IsString(args[0])
    ensures p == Rejected(FilterNotArray) <==>
      |args| > 0 && IsString(args[0]) && !IsArray(Argument(args, 1)) && IsObject(Argument(args, 1)) &&
      !IsArray(Get(Argument(args, 1), "filter")) && !IsUndefined(Get(Argument(args, 1), "filter"))
    ensures p == Rejected(BadOptions) <==>
      |args| > 0 && IsString(args[0]) && !IsObject(Argument(args, 1)) && !IsUndefined(Argument(args, 1))
    ensures p.Accepted? ==> p.request.functionName == args[0].units
  {
    if |args| == 0 || !IsString(args[0]) then Rejected(NameRequired)
    else
      var functionName := args[0].units;
      var options := Argument(args, 1);
      if IsArray(options) then Accepted(Request(functionName, Some(options), None))
      else if IsObject(options) then
        var filter := Get(options, "filter");
        if !IsArray(filter) && !IsUndefined(filter) then Rejected(FilterNotArray)
        else Accepted(Request(functionName, Some(Get(options, "arguments")), Some(filter)))
      else if !IsUndefined(options) then Rejected(BadOptions)
      else Accepted(Request(functionName, None, None))
  }

  /** An array second argument is the function's arguments, with no filter;
      an options object with a valid filter is accepted, its `arguments`
      and `filter` encoded, the filter key by key, and an undefined one
      dropped. */
  lemma ParsedRequest(args: seq<HostValue>)
    requires |args| > 0 && IsString(args[0])
    ensures IsArray(Argument(args, 1)) ==>
      ParseExecuteFunction(args) == Accepted(FunctionRequest(args[0].units, Encode(args[1]), None))
    ensures !IsObject(Argument(args, 1)) && IsUndefined(Argument(args, 1)) ==>
      ParseExecuteFunction(args) == Accepted(FunctionRequest(args[0].units, NullPtr, None))
    ensures IsObject(Argument(args, 1)) && !IsArray(Argument(args, 1)) && IsUndefined(Get(args[1], "filter")) ==>
      ParseExecuteFunction(args).Accepted? && ParseExecuteFunction(args).request.functionFilter.None?
    ensures IsObject(Argument(args, 1)) && !IsArray(Argument(args, 1)) && IsArray(Get(args[1], "filter")) ==>
      var filter := Get(args[1], "filter").elements;
      ParseExecuteFunction(args).Accepted? &&
      ParseExecuteFunction(args).request.functionFilter.Some? &&
      |ParseExecuteFunction(args).request.functionFilter.value| == |filter| &&
      forall i :: 0 <= i < |filter| ==> ParseExecuteFunction(args).request.functionFilter.value[i] == Encode(filter[i])
    ensures (IsObject(Argument(args, 1)) && !IsArray(Argument(args, 1)) &&
             (IsArray(Get(args[1], "filter")) || IsUndefined(Get(args[1], "filter")))) ==>
      ParseExecuteFunction(args).Accepted? &&
      ParseExecuteFunction(args).request.functionArguments ==
        (if IsUndefined(Get(args[1], "arguments")) then NullPtr else Encode(Get(args[1], "arguments")))
  {
  }

  /** The event `Data` emits for one result: "error" for a native error,
      "data" otherwise, with the decoded result. */
  function ResultEvent(result: NativeValue): Emission {
    var v := Decode(result).value;
    if IsNativeError(v) then Emission("error", [v]) else Emission("data", [v])
  }

  function ResultEvents(results: seq<NativeValue>): (es: seq<Emission>)
    ensures |es| == |results| && forall i :: 0 <= i < |results| ==> es[i] == ResultEvent(results[i])
  {
    seq(|results|, i requires 0 <= i < |results| => ResultEvent(results[i]))
  }

  /** Draining in several batches emits what draining once does. */
  lemma ResultEventsAppend(a: seq<NativeValue>, b: seq<NativeValue>)
    ensures ResultEvents(a + b) == ResultEvents(a) + ResultEvents(b)
  {
  }

  /** With this codec every result is a "data" event: a decoded value is
      never a native error, so the "error" branch of `Data` is not taken. */
  lemma ResultsAreData(results: seq<NativeValue>)
    ensures forall i :: 0 <= i < |results| ==> ResultEvents(results)[i] == Emission("data", [Decode(results[i]).value])
  {
  }

  class ExecuteFunctionWorker {
    const resultStreamPtr: ResultStream
    var executionPtr: Execution
    const functionName: seq<CodeUnit>
    const functionArguments: NativeValue
    const functionFilter: Option<seq<NativeValue>>
    const emitter: Emitter
    var errorMessage: string

    constructor(executionPtr: Execution, request: FunctionRequest, emitter: Emitter)
      ensures fresh(resultStreamPtr) && resultStreamPtr.Valid()
      ensures resultStreamPtr.resultsPtr == [] && !resultStreamPtr.endSent
      ensures this.executionPtr == executionPtr && this.emitter == emitter && errorMessage == ""
      ensures functionName == request.functionName && functionArguments == request.functionArguments
      ensures functionFilter == request.functionFilter
    {
      resultStreamPtr := new ResultStream();
      this.executionPtr := executionPtr;
      functionName := request.functionName;
      functionArguments := request.functionArguments;
      functionFilter := request.functionFilter;
      this.emitter := emitter;
      errorMessage := "";
    }

    /** `Execute`: arguments and filter are applied only when present, the
        results go to the stream, and a native exception becomes the error
        message.  `fault` is what the native execution raises, if anything;
        the results it streams arrive through `resultStreamPtr.Add`. */
    method Execute(fault: Option<NativeException>)
      modifies this
      ensures executionPtr.arguments == (if functionArguments.NullPtr? then old(executionPtr.arguments) else Some(functionArguments))
      ensures executionPtr.filter == (if functionFilter.None? then old(executionPtr.filter) else functionFilter)
      ensures executionPtr.collected
      ensures errorMessage == (if fault.Some? then GemfireExceptionMessage(fault.value) else old(errorMessage))
    {
      if !functionArguments.NullPtr? {
        executionPtr := executionPtr.(arguments := Some(functionArguments));
      }
      if functionFilter.Some? {
        executionPtr := executionPtr.(filter := functionFilter);
      }
      executionPtr := executionPtr.(collected := true);
      if fault.Some? {
        errorMessage := GemfireExceptionMessage(fault.value);
      }
    }

    /** `ExecuteComplete`: an "error" event exactly when there is an error
        message. */
    method ExecuteComplete()
      modifies emitter
      ensures errorMessage != "" ==> emitter.emitted == old(emitter.emitted) + [Emission("error", [ErrorValue(errorMessage)])]
      ensures errorMessage == "" ==> emitter.emitted == old(emitter.emitted)
    {
      if errorMessage != "" {
        emitter.EmitError(ErrorValue(errorMessage));
      }
    }

    /** `Data`: drains the stream and emits one event per drained result,
        in drain order. */
    method Data()
      requires resultStreamPtr.Valid()
      modifies emitter, resultStreamPtr
      ensures resultStreamPtr.Valid() && resultStreamPtr.resultsPtr == []
      ensures resultStreamPtr.drained == resultStreamPtr.added
      ensures resultStreamPtr.endSent == old(resultStreamPtr.endSent)
      ensures emitter.emitted == old(emitter.emitted) + ResultEvents(old(resultStreamPtr.resultsPtr))
    {
      var resultsPtr := resultStreamPtr.NextResults();
      for i := 0 to |resultsPtr|
        invariant resultStreamPtr.Valid() && resultStreamPtr.resultsPtr == []
        invariant resultStreamPtr.drained == resultStreamPtr.added
        invariant resultStreamPtr.endSent == old(resultStreamPtr.endSent)
        invariant emitter.emitted == old(emitter.emitted) + ResultEvents(resultsPtr[..i])
      {
        var result := V8ValueFromGemfire(resultsPtr[i]);
        // `emitError` emits "error" with its argument, so both branches
        // of the source are one `EmitEvent` with the event name chosen.
        var eventName := if IsNativeError(result.value) then "error" else "data";
        emitter.EmitEvent(eventName, [result.value]);
        assert resultsPtr[..i + 1] == resultsPtr[..i] + [resultsPtr[i]];
      }
      assert resultsPtr[..|resultsPtr|] == resultsPtr;
    }

    /** `End`: the "end" event. */
    method End()
      modifies emitter
      ensures emitter.emitted == old(emitter.emitted) + [Emission("end", [])]
    {
      emitter.EmitEvent("end", []);
    }
  }

  /** `executeFunction`: a rejected call throws and starts nothing; an
      accepted one starts a worker for the parsed request and returns its
      fresh EventEmitter. */
  method ExecuteFunction(args: seq<HostValue>, executionPtr: Execution) returns (r: Launch<ExecuteFunctionWorker, Emitter>)
    ensures ParseExecuteFunction(args).Rejected? ==> r == Threw(ParseExecuteFunction(args).message)
    ensures ParseExecuteFunction(args).Accepted? ==>
      r.Queued? && r.returned == r.worker.emitter && fresh(r.worker) && fresh(r.worker.emitter) && fresh(r.worker.resultStreamPtr) &&
      r.worker.emitter.emitted == [] && r.worker.errorMessage == "" && r.worker.executionPtr == executionPtr &&
      r.worker.resultStreamPtr.Valid() && r.worker.resultStreamPtr.resultsPtr == [] &&
      FunctionRequest(r.worker.functionName, r.worker.functionArguments, r.worker.functionFilter) ==
        ParseExecuteFunction(args).request
  {
    var parsed := ParseExecuteFunction(args);
    if parsed.Rejected? {
      return Threw(parsed.message);
    }
    var eventEmitter := new Emitter();
    var worker := new ExecuteFunctionWorker(executionPtr, parsed.request, eventEmitter);
    r := Queued(worker, eventEmitter);
  }
}
