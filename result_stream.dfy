/** src/result_stream.cpp: the buffer that carries a function's results
    from the collector thread to the JavaScript thread, and the end
    signal that must not overtake them.  Waiting on condition variables
    is not part of the model: one test of the wait loop's condition
    stands for it. */
module ResultStreams {
  import opened Codec

  class ResultStream {
    var resultsPtr: seq<NativeValue>
    var endSent: bool
    ghost var added: seq<NativeValue>
    ghost var drained: seq<NativeValue>

    ghost predicate Valid()
      reads this
    {
      drained + resultsPtr == added && (endSent ==> resultsPtr == [] && drained == added)
    }

    constructor()
      ensures Valid() && resultsPtr == [] && !endSent && added == [] && drained == []
    {
      resultsPtr := [];
      endSent := false;
      added := [];
      drained := [];
    }

    /** `add`: the result goes to the end of the buffer. */
    method Add(resultPtr: NativeValue)
      requires Valid() && !endSent
      modifies this
      ensures Valid()
      ensures resultsPtr == old(resultsPtr) + [resultPtr] && endSent == old(endSent)
      ensures added == old(added) + [resultPtr] && drained == old(drained)
    {
      resultsPtr := resultsPtr + [resultPtr];
      added := added + [resultPtr];
    }

    /** `end`: the end signal goes out only once the buffer is seen empty,
        so it never overtakes a result: when it is sent, every result
        added has been drained.  `sent` is false while the loop would still
        be waiting for the consumer. */
    method End() returns (sent: bool)
      requires Valid()
      modifies this
      ensures Valid()
      ensures sent <==> old(resultsPtr) == []
      ensures sent ==> endSent && drained == added
      ensures !sent ==> endSent == old(endSent)
      ensures resultsPtr == old(resultsPtr) && added == old(added) && drained == old(drained)
    {
      if |resultsPtr| > 0 {
        return false;
      }
      endSent := true;
      sent := true;
    }

    /** `nextResults`: a fresh vector holding every buffered result in
        arrival order; afterwards the buffer is empty. */
    method NextResults() returns (returnValue: seq<NativeValue>)
      requires Valid()
      modifies this
      ensures Valid()
      ensures returnValue == old(resultsPtr) && resultsPtr == []
      ensures old(resultsPtr) == [] ==> returnValue == []
      ensures drained == old(drained) + returnValue && added == old(added) && drained == added
      ensures endSent == old(endSent)
    {
      returnValue := [];
      for i := 0 to |resultsPtr|
        invariant returnValue == resultsPtr[..i]
      {
        returnValue := returnValue + [resultsPtr[i]];
      }
      assert resultsPtr[..|resultsPtr|] == resultsPtr;
      resultsPtr := [];
      drained := drained + returnValue;
    }
  }
}
