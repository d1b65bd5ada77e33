/** src/select_results.cpp: the JavaScript wrapper of a query's result
    set, whose prototype has the single method `toArray`. */
module QueryResults {
  import opened Codec

  class SelectResults {
    /** The result set, in index order. */
    const selectResultsPtr: seq<NativeValue>

    constructor(selectResultsPtr: seq<NativeValue>)
      ensures this.selectResultsPtr == selectResultsPtr
    {
      this.selectResultsPtr := selectResultsPtr;
    }

    /** `ToArray`: an array of `size()` elements, element i the decoding
        of result i.  The result set is left as it is, so every call
        returns the same array. */
    method ToArray() returns (d: Decoded)
      ensures d == Decode(CacheableVector(selectResultsPtr))
      ensures d.value.Array? && |d.value.elements| == |selectResultsPtr|
      ensures forall i :: 0 <= i < |selectResultsPtr| ==> d.value.elements[i] == Decode(selectResultsPtr[i]).value
    {
      var length := |selectResultsPtr|;
      var v8Array: seq<HostValue> := seq(length, _ => Undefined);
      var thrown: seq<int> := [];
      ghost var got: seq<Decoded> := [];
      for i := 0 to length
        invariant DecodedPrefix(selectResultsPtr, got, v8Array, thrown) && |got| == i && |v8Array| == length
      {
        var element := V8ValueFromGemfire(selectResultsPtr[i]);
        DecodedPrefixSet(selectResultsPtr, got, v8Array, thrown, element);
        v8Array := v8Array[i := element.value];
        got := got + [element];
        thrown := thrown + element.thrown;
      }
      DecodedItems(CacheableVector(selectResultsPtr), got, v8Array, thrown);
      d := Decoded(Array(v8Array), thrown);
    }
  }
}
