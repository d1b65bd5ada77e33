/** src/region.cpp: the methods of a `Region` wrapper.  Each method first
    validates its arguments synchronously, throwing with a fixed message;
    then it queues a worker whose `Execute` makes the native call and sets
    result and error fields, and whose completion calls the JavaScript
    callback once.

    The native calls are not part of the model: a native region is a map
    from keys to values, and every `Execute` takes as a parameter the
    exception the native call raises, if any.  `gemfireKeyFromV8`,
    `gemfireKeysFromV8`, `gemfireHashMapFromV8` and the decoding of a
    hash map are not part of this model either; they are parameters, a
    key encoded to `NullPtr` is the null key, and a key vector or a map
    encoded to `None` is the null pointer. */
module RegionMethods {
  import opened Common
  import opened Codec
  import opened Runtime
  import Functions

  /** The outcome of a method's argument checks. */
  datatype Validation = Throw(message: string) | Proceed

  const InvalidKey := "Invalid GemFire key."
  const KeyNotFound := "Key not found in region."

  // ---------------------------------------------------------------------
  // clear, inspect and name.

  /** `clear`: the region is emptied and the call returns true. */
  method Clear(region: Region) returns (r: HostValue)
    modifies region.regionPtr
    ensures region.regionPtr.entries == map[] && r == Boolean(true)
  {
    region.regionPtr.entries := map[];
    r := Boolean(true);
  }

  /** The `name` accessor: the native region's name, read as a C string. */
  function Name(region: Region): (name: string)
    ensures '\0' !in name
    ensures name == region.regionPtr.name <==> '\0' !in region.regionPtr.name
  {
    if '\0' in region.regionPtr.name then
      UpToNul(region.regionPtr.name, '\0')
    else
      UpToNulOfFree(region.regionPtr.name, '\0');
      UpToNul(region.regionPtr.name, '\0')
  }

  /** `inspect`: `[Region name="<name>"]`, from which the name can be
      read back between the fixed prefix and suffix. */
  function Inspect(region: Region): (s: string)
    ensures |s| == |Name(region)| + 16
    ensures s[..14] == "[Region name=\"" && s[|s| - 2..] == "\"]"
    ensures s[14..|s| - 2] == Name(region)
  {
    "[Region name=\"" + Name(region) + "\"]"
  }

  // ---------------------------------------------------------------------
  // put

  const PutArgumentsMissing := "You must pass a key, value, and callback to put()."
  const PutCallbackMissing := "You must pass a callback to put()."

  /** The checks of `put()`: at least three arguments, the third a
      function. */
  function ValidatePut(args: seq<HostValue>): (v: Validation)
    ensures v == Proceed <==> |args| >= 3 && IsFunction(args[2])
    ensures v == Throw(PutArgumentsMissing) <==> |args| < 3
    ensures v == Throw(PutCallbackMissing) <==> |args| >= 3 && !IsFunction(args[2])
  {
    if |args| < 3 then Throw(PutArgumentsMissing)
    else if !IsFunction(args[2]) then Throw(PutCallbackMissing)
    else Proceed
  }

  /** `unableToPutValueError`: the message for a value with no native
      encoding, followed by V8's detail string of it. */
  function UnableToPutValueError(detail: string): string {
    "Unable to put value " + detail
  }

  class PutWorker {
    const regionPtr: NativeRegion
    const keyPtr: NativeValue
    const valuePtr: NativeValue
    const asyncWorker: AsyncWorker

    constructor(regionPtr: NativeRegion, keyPtr: NativeValue, valuePtr: NativeValue, callback: Callback)
      ensures this.regionPtr == regionPtr && this.keyPtr == keyPtr && this.valuePtr == valuePtr
      ensures fresh(asyncWorker) && asyncWorker.callback == callback && asyncWorker.errmsg.None?
    {
      this.regionPtr := regionPtr;
      this.keyPtr := keyPtr;
      this.valuePtr := valuePtr;
      asyncWorker := new AsyncWorker(callback);
    }

    /** `Execute`: a null key is reported and the region is not touched;
        otherwise the entry is stored, unless the native put raises
        `fault`, whose message is then reported. */
    method Execute(fault: Option<NativeException>)
      modifies regionPtr, asyncWorker
      ensures keyPtr.NullPtr? ==> asyncWorker.errmsg == Some(InvalidKey) && regionPtr.entries == old(regionPtr.entries)
      ensures !keyPtr.NullPtr? && fault.Some? ==>
        asyncWorker.errmsg == Some(GemfireExceptionMessage(fault.value)) && regionPtr.entries == old(regionPtr.entries)
      ensures !keyPtr.NullPtr? && fault.None? ==>
        asyncWorker.errmsg == old(asyncWorker.errmsg) && regionPtr.entries == old(regionPtr.entries)[keyPtr := valuePtr]
    {
      if keyPtr.NullPtr? {
        asyncWorker.SetErrorMessage(InvalidKey);
        return;
      }
      if fault.Some? {
        asyncWorker.SetErrorMessage(GemfireExceptionMessage(fault.value));
      } else {
        regionPtr.entries := regionPtr.entries[keyPtr := valuePtr];
      }
    }

    /** `Fail`: completes the worker at once with `errorMessage`. */
    method Fail(errorMessage: string)
      modifies asyncWorker, asyncWorker.callback
      ensures asyncWorker.errmsg == Some(errorMessage)
      ensures asyncWorker.callback.calls == old(asyncWorker.callback.calls) + [[ErrorValue(errorMessage)]]
    {
      asyncWorker.SetErrorMessage(errorMessage);
      WorkComplete();
    }

    /** `HandleOKCallback`: no error, and the stored value decoded. */
    method HandleOKCallback()
      modifies asyncWorker.callback
      ensures asyncWorker.callback.calls == old(asyncWorker.callback.calls) + [[Undefined, Decode(valuePtr).value]]
    {
      var value := V8ValueFromGemfire(valuePtr);
      asyncWorker.callback.Call([Undefined, value.value]);
    }

    method WorkComplete()
      modifies asyncWorker.callback
      ensures asyncWorker.errmsg.None? ==>
        asyncWorker.callback.calls == old(asyncWorker.callback.calls) + [[Undefined, Decode(valuePtr).value]]
      ensures asyncWorker.errmsg.Some? ==>
        asyncWorker.callback.calls == old(asyncWorker.callback.calls) + [[ErrorValue(asyncWorker.errmsg.value)]]
    {
      if asyncWorker.errmsg.None? {
        HandleOKCallback();
      } else {
        asyncWorker.HandleErrorCallback();
      }
    }
  }

  /** `put()`: the checks come before any encoding.  A value that encodes
      to the null pointer completes the worker at once with "Unable to put
      value" and the value's detail string, and queues nothing; any other
      value queues the worker.  Both return the region.  With a PDX factory
      that never raises, only `undefined` encodes to the null pointer, and
      its detail string is "undefined". */
  method Put(region: Region, args: seq<HostValue>, keyFromHost: HostValue -> NativeValue) returns (r: Launch<PutWorker, Region>)
    ensures ValidatePut(args).Throw? ==> r == Threw(ValidatePut(args).message)
    ensures ValidatePut(args).Proceed? ==>
      !r.Threw? && fresh(r.worker) && fresh(r.worker.asyncWorker) && fresh(r.worker.asyncWorker.callback) &&
      r.worker.regionPtr == region.regionPtr && r.worker.keyPtr == keyFromHost(args[0]) &&
      r.worker.valuePtr == Encode(args[1]) && r.worker.asyncWorker.callback.target == args[2]
    ensures r.Completed? <==> ValidatePut(args).Proceed? && IsUndefined(args[1])
    ensures !r.Threw? ==> r.returned == region
    ensures r.Completed? ==>
      r.worker.asyncWorker.callback.calls == [[ErrorValue(UnableToPutValueError("undefined"))]]
    ensures r.Queued? ==> r.worker.asyncWorker.callback.calls == [] && r.worker.asyncWorker.errmsg.None?
  {
    var validation := ValidatePut(args);
    if validation.Throw? {
      return Threw(validation.message);
    }
    var keyPtr := keyFromHost(args[0]);
    var valuePtr := GemfireValueFromV8(args[1]);
    var callback := new Callback(args[2]);
    var putWorker := new PutWorker(region.regionPtr, keyPtr, valuePtr, callback);
    EncodeShape(args[1]);
    if valuePtr.NullPtr? {
      // With a PDX factory that never raises, only `undefined` encodes to
      // the null pointer; V8's detail string of it is "undefined".
      putWorker.Fail(UnableToPutValueError("undefined"));
      r := Completed(putWorker, region);
    } else {
      r := Queued(putWorker, region);
    }
  }

  // ---------------------------------------------------------------------
  // get

  const GetArgumentsMissing := "You must pass a key and callback to get()."
  const GetCallbackMissing := "You must pass a callback to get()."
  const GetCallbackNotFunction := "The second argument to get() must be a callback."

  /** The checks of `get()`: three distinct messages for no arguments, one
      argument, and a second argument that is not a function. */
  function ValidateGet(args: seq<HostValue>): (v: Validation)
    ensures v == Proceed <==> |args| >= 2 && IsFunction(args[1])
    ensures v == Throw(GetArgumentsMissing) <==> |args| == 0
    ensures v == Throw(GetCallbackMissing) <==> |args| == 1
    ensures v == Throw(GetCallbackNotFunction) <==> |args| >= 2 && !IsFunction(args[1])
  {
    if |args| == 0 then Throw(GetArgumentsMissing)
    else if |args| == 1 then Throw(GetCallbackMissing)
    else if !IsFunction(args[1]) then Throw(GetCallbackNotFunction)
    else Proceed
  }

  class GetWorker {
    const regionPtr: NativeRegion
    const keyPtr: NativeValue
    var valuePtr: NativeValue
    const asyncWorker: AsyncWorker

    constructor(callback: Callback, regionPtr: NativeRegion, keyPtr: NativeValue)
      ensures this.regionPtr == regionPtr && this.keyPtr == keyPtr && valuePtr.NullPtr?
      ensures fresh(asyncWorker) && asyncWorker.callback == callback && asyncWorker.errmsg.None?
    {
      this.regionPtr := regionPtr;
      this.keyPtr := keyPtr;
      valuePtr := NullPtr;
      asyncWorker := new AsyncWorker(callback);
    }

    /** `Execute`: a null key is reported without a native call.  Otherwise
        the value is fetched, null for a missing key; whenever the value is
        still null afterwards, "Key not found in region." is set last and
        so supersedes the message of a native exception. */
    method Execute(fault: Option<NativeException>)
      modifies this, asyncWorker
      ensures keyPtr.NullPtr? ==> asyncWorker.errmsg == Some(InvalidKey) && valuePtr == old(valuePtr)
      ensures !keyPtr.NullPtr? && fault.Some? ==>
        valuePtr == old(valuePtr) &&
        asyncWorker.errmsg == Some(if valuePtr.NullPtr? then KeyNotFound else GemfireExceptionMessage(fault.value))
      ensures !keyPtr.NullPtr? && fault.None? ==>
        valuePtr == (if keyPtr in regionPtr.entries then regionPtr.entries[keyPtr] else NullPtr) &&
        asyncWorker.errmsg == (if valuePtr.NullPtr? then Some(KeyNotFound) else old(asyncWorker.errmsg))
    {
      if keyPtr.NullPtr? {
        asyncWorker.SetErrorMessage(InvalidKey);
        return;
      }
      if fault.Some? {
        asyncWorker.SetErrorMessage(GemfireExceptionMessage(fault.value));
      } else {
        valuePtr := if keyPtr in regionPtr.entries then regionPtr.entries[keyPtr] else NullPtr;
      }
      if valuePtr.NullPtr? {
        asyncWorker.SetErrorMessage(KeyNotFound);
      }
    }

    method HandleOKCallback()
      modifies asyncWorker.callback
      ensures asyncWorker.callback.calls == old(asyncWorker.callback.calls) + [[Undefined, Decode(valuePtr).value]]
    {
      var value := V8ValueFromGemfire(valuePtr);
      asyncWorker.callback.Call([Undefined, value.value]);
    }

    method WorkComplete()
      modifies asyncWorker.callback
      ensures asyncWorker.errmsg.None? ==>
        asyncWorker.callback.calls == old(asyncWorker.callback.calls) + [[Undefined, Decode(valuePtr).value]]
      ensures asyncWorker.errmsg.Some? ==>
        asyncWorker.callback.calls == old(asyncWorker.callback.calls) + [[ErrorValue(asyncWorker.errmsg.value)]]
    {
      if asyncWorker.errmsg.None? {
        HandleOKCallback();
      } else {
        asyncWorker.HandleErrorCallback();
      }
    }
  }

  /** `get()`: after the checks, a worker for the encoded key is queued. */
  method Get(region: Region, args: seq<HostValue>, keyFromHost: HostValue -> NativeValue) returns (r: Launch<GetWorker, Region>)
    ensures ValidateGet(args).Throw? ==> r == Threw(ValidateGet(args).message)
    ensures ValidateGet(args).Proceed? ==>
      r.Queued? && r.returned == region && fresh(r.worker) && fresh(r.worker.asyncWorker) && fresh(r.worker.asyncWorker.callback) &&
      r.worker.regionPtr == region.regionPtr && r.worker.keyPtr == keyFromHost(args[0]) &&
      r.worker.valuePtr.NullPtr? && r.worker.asyncWorker.errmsg.None? &&
      r.worker.asyncWorker.callback.target == args[1] && r.worker.asyncWorker.callback.calls == []
  {
    var validation := ValidateGet(args);
    if validation.Throw? {
      return Threw(validation.message);
    }
    var keyPtr := keyFromHost(args[0]);
    var callback := new Callback(args[1]);
    var getWorker := new GetWorker(callback, region.regionPtr, keyPtr);
    r := Queued(getWorker, region);
  }

  // ---------------------------------------------------------------------
  // getAll

  const GetAllKeysMissing := "You must pass an array of keys and a callback to getAll()."
  const GetAllCallbackMissing := "You must pass a callback to getAll()."
  const GetAllCallbackNotFunction := "You must pass a function as the callback to getAll()."

  /** The checks of `getAll()`: the key array is checked before the
      callback. */
  function ValidateGetAll(args: seq<HostValue>): (v: Validation)
    ensures v == Proceed <==> |args| >= 2 && IsArray(args[0]) && IsFunction(args[1])
    ensures v == Throw(GetAllKeysMissing) <==> |args| == 0 || !IsArray(args[0])
    ensures v == Throw(GetAllCallbackMissing) <==> |args| == 1 && IsArray(args[0])
    ensures v == Throw(GetAllCallbackNotFunction) <==> |args| >= 2 && IsArray(args[0]) && !IsFunction(args[1])
  {
    if |args| == 0 || !IsArray(args[0]) then Throw(GetAllKeysMissing)
    else if |args| == 1 then Throw(GetAllCallbackMissing)
    else if !IsFunction(args[1]) then Throw(GetAllCallbackNotFunction)
    else Proceed
  }

  /** The entries of `entries` whose keys are among `keys`: what the native
      `getAll` collects. */
  function EntriesFor(keys: seq<NativeValue>, entries: map<NativeValue, NativeValue>): (m: map<NativeValue, NativeValue>)
    ensures forall k :: k in m <==> k in keys && k in entries
    ensures forall k :: k in m ==> m[k] == entries[k]
  {
    map k | k in keys && k in entries :: entries[k]
  }

  class GetAllWorker {
    const regionPtr: NativeRegion
    /** The encoded keys; `None` is the null vector pointer. */
    const gemfireKeysPtr: Option<seq<NativeValue>>
    var resultsPtr: map<NativeValue, NativeValue>
    /** The decoding of a native hash map into a host object. */
    const hashMapToHost: map<NativeValue, NativeValue> -> HostValue
    const asyncWorker: AsyncWorker

    constructor(regionPtr: NativeRegion, gemfireKeysPtr: Option<seq<NativeValue>>, callback: Callback,
                hashMapToHost: map<NativeValue, NativeValue> -> HostValue)
      ensures this.regionPtr == regionPtr && this.gemfireKeysPtr == gemfireKeysPtr
      ensures this.hashMapToHost == hashMapToHost && resultsPtr == map[]
      ensures fresh(asyncWorker) && asyncWorker.callback == callback && asyncWorker.errmsg.None?
    {
      this.regionPtr := regionPtr;
      this.gemfireKeysPtr := gemfireKeysPtr;
      this.hashMapToHost := hashMapToHost;
      resultsPtr := map[];
      asyncWorker := new AsyncWorker(callback);
    }

    /** `Execute`: the results start as a new empty map.  The size of the
        key vector is read outside the `try`, so a null vector raises an
        exception nothing catches and the worker thread `terminates` the
        process.  With no keys there is no native call, so no fault can
        arise and the results stay empty; otherwise they are the region's
        entries for the keys, or the native exception is reported. */
    method Execute(fault: Option<NativeException>) returns (terminates: bool)
      modifies this, asyncWorker
      ensures terminates <==> gemfireKeysPtr.None?
      ensures terminates ==> resultsPtr == map[] && asyncWorker.errmsg == old(asyncWorker.errmsg)
      ensures gemfireKeysPtr == Some([]) ==> resultsPtr == map[] && asyncWorker.errmsg == old(asyncWorker.errmsg)
      ensures gemfireKeysPtr.Some? && |gemfireKeysPtr.value| > 0 && fault.Some? ==>
        resultsPtr == map[] && asyncWorker.errmsg == Some(GemfireExceptionMessage(fault.value))
      ensures gemfireKeysPtr.Some? && |gemfireKeysPtr.value| > 0 && fault.None? ==>
        resultsPtr == EntriesFor(gemfireKeysPtr.value, regionPtr.entries) && asyncWorker.errmsg == old(asyncWorker.errmsg)
    {
      resultsPtr := map[];
      if gemfireKeysPtr.None? {
        return true;
      }
      terminates := false;
      if |gemfireKeysPtr.value| == 0 {
        return;
      }
      if fault.Some? {
        asyncWorker.SetErrorMessage(GemfireExceptionMessage(fault.value));
      } else {
        resultsPtr := EntriesFor(gemfireKeysPtr.value, regionPtr.entries);
      }
    }

    method HandleOKCallback()
      modifies asyncWorker.callback
      ensures asyncWorker.callback.calls == old(asyncWorker.callback.calls) + [[Undefined, hashMapToHost(resultsPtr)]]
    {
      asyncWorker.callback.Call([Undefined, hashMapToHost(resultsPtr)]);
    }

    method WorkComplete()
      modifies asyncWorker.callback
      ensures asyncWorker.errmsg.None? ==>
        asyncWorker.callback.calls == old(asyncWorker.callback.calls) + [[Undefined, hashMapToHost(resultsPtr)]]
      ensures asyncWorker.errmsg.Some? ==>
        asyncWorker.callback.calls == old(asyncWorker.callback.calls) + [[ErrorValue(asyncWorker.errmsg.value)]]
    {
      if asyncWorker.errmsg.None? {
        HandleOKCallback();
      } else {
        asyncWorker.HandleErrorCallback();
      }
    }
  }

  /** `getAll()`: after the checks, a worker for the encoded keys is
      queued. */
  method GetAll(region: Region, args: seq<HostValue>, keysFromHost: HostValue -> Option<seq<NativeValue>>,
                hashMapToHost: map<NativeValue, NativeValue> -> HostValue) returns (r: Launch<GetAllWorker, Region>)
    ensures ValidateGetAll(args).Throw? ==> r == Threw(ValidateGetAll(args).message)
    ensures ValidateGetAll(args).Proceed? ==>
      r.Queued? && r.returned == region && fresh(r.worker) && fresh(r.worker.asyncWorker) && fresh(r.worker.asyncWorker.callback) &&
      r.worker.regionPtr == region.regionPtr && r.worker.gemfireKeysPtr == keysFromHost(args[0]) &&
      r.worker.hashMapToHost == hashMapToHost && r.worker.asyncWorker.errmsg.None? &&
      r.worker.asyncWorker.callback.target == args[1] && r.worker.asyncWorker.callback.calls == []
  {
    var validation := ValidateGetAll(args);
    if validation.Throw? {
      return Threw(validation.message);
    }
    var gemfireKeysPtr := keysFromHost(args[0]);
    var callback := new Callback(args[1]);
    var worker := new GetAllWorker(region.regionPtr, gemfireKeysPtr, callback, hashMapToHost);
    r := Queued(worker, region);
  }

  // ---------------------------------------------------------------------
  // putAll

  const PutAllObjectMissing := "You must pass an object and a callback to putAll()."
  const PutAllCallbackMissing := "You must pass a callback to putAll()."
  const PutAllCallbackNotFunction := "You must pass a function as the callback to putAll()."

  /** The checks of `putAll()`: the object is checked before the
      callback; arrays and dates pass as objects. */
  function ValidatePutAll(args: seq<HostValue>): (v: Validation)
    ensures v == Proceed <==> |args| >= 2 && IsObject(args[0]) && IsFunction(args[1])
    ensures v == Throw(PutAllObjectMissing) <==> |args| == 0 || !IsObject(args[0])
    ensures v == Throw(PutAllCallbackMissing) <==> |args| == 1 && IsObject(args[0])
    ensures v == Throw(PutAllCallbackNotFunction) <==> |args| >= 2 && IsObject(args[0]) && !IsFunction(args[1])
  {
    if |args| == 0 || !IsObject(args[0]) then Throw(PutAllObjectMissing)
    else if |args| == 1 then Throw(PutAllCallbackMissing)
    else if !IsFunction(args[1]) then Throw(PutAllCallbackNotFunction)
    else Proceed
  }

  class PutAllWorker {
    const regionPtr: NativeRegion
    /** The encoded map; `None` is the null map pointer. */
    const hashMapPtr: Option<map<NativeValue, NativeValue>>
    const asyncWorker: AsyncWorker

    constructor(regionPtr: NativeRegion, hashMapPtr: Option<map<NativeValue, NativeValue>>, callback: Callback)
      ensures this.regionPtr == regionPtr && this.hashMapPtr == hashMapPtr
      ensures fresh(asyncWorker) && asyncWorker.callback == callback && asyncWorker.errmsg.None?
    {
      this.regionPtr := regionPtr;
      this.hashMapPtr := hashMapPtr;
      asyncWorker := new AsyncWorker(callback);
    }

    /** `Execute`: every entry of the map is stored, overriding the
        region's entry for the same key, unless the native call raises.
        The map is dereferenced inside the `try`, so a null map raises
        `nullPointer`, the client's null-pointer exception, which is
        reported like any other and stores nothing. */
    method Execute(fault: Option<NativeException>, nullPointer: NativeException)
      modifies regionPtr, asyncWorker
      ensures hashMapPtr.None? ==>
        asyncWorker.errmsg == Some(GemfireExceptionMessage(nullPointer)) && regionPtr.entries == old(regionPtr.entries)
      ensures hashMapPtr.Some? && fault.Some? ==>
        asyncWorker.errmsg == Some(GemfireExceptionMessage(fault.value)) && regionPtr.entries == old(regionPtr.entries)
      ensures hashMapPtr.Some? && fault.None? ==>
        asyncWorker.errmsg == old(asyncWorker.errmsg) && regionPtr.entries == old(regionPtr.entries) + hashMapPtr.value
    {
      if hashMapPtr.None? {
        asyncWorker.SetErrorMessage(GemfireExceptionMessage(nullPointer));
      } else if fault.Some? {
        asyncWorker.SetErrorMessage(GemfireExceptionMessage(fault.value));
      } else {
        regionPtr.entries := regionPtr.entries + hashMapPtr.value;
      }
    }

    /** No `HandleOKCallback` of its own: the callback gets no arguments. */
    method WorkComplete()
      modifies asyncWorker.callback
      ensures asyncWorker.errmsg.None? ==> asyncWorker.callback.calls == old(asyncWorker.callback.calls) + [[]]
      ensures asyncWorker.errmsg.Some? ==>
        asyncWorker.callback.calls == old(asyncWorker.callback.calls) + [[ErrorValue(asyncWorker.errmsg.value)]]
    {
      if asyncWorker.errmsg.None? {
        asyncWorker.HandleOKCallback();
      } else {
        asyncWorker.HandleErrorCallback();
      }
    }
  }

  /** `putAll()`: after the checks, a worker for the encoded map is
      queued. */
  method PutAll(region: Region, args: seq<HostValue>, hashMapFromHost: HostValue -> Option<map<NativeValue, NativeValue>>)
    returns (r: Launch<PutAllWorker, Region>)
    ensures ValidatePutAll(args).Throw? ==> r == Threw(ValidatePutAll(args).message)
    ensures ValidatePutAll(args).Proceed? ==>
      r.Queued? && r.returned == region && fresh(r.worker) && fresh(r.worker.asyncWorker) && fresh(r.worker.asyncWorker.callback) &&
      r.worker.regionPtr == region.regionPtr && r.worker.hashMapPtr == hashMapFromHost(args[0]) &&
      r.worker.asyncWorker.errmsg.None? &&
      r.worker.asyncWorker.callback.target == args[1] && r.worker.asyncWorker.callback.calls == []
  {
    var validation := ValidatePutAll(args);
    if validation.Throw? {
      return Threw(validation.message);
    }
    var hashMapPtr := hashMapFromHost(args[0]);
    var callback := new Callback(args[1]);
    var worker := new PutAllWorker(region.regionPtr, hashMapPtr, callback);
    r := Queued(worker, region);
  }

  // ---------------------------------------------------------------------
  // remove

  const RemoveArgumentsMissing := "You must pass a key and a callback to remove()."
  const RemoveCallbackNotFunction := "You must pass a function as the callback to remove()."

  function ValidateRemove(args: seq<HostValue>): (v: Validation)
    ensures v == Proceed <==> |args| >= 2 && IsFunction(args[1])
    ensures v == Throw(RemoveArgumentsMissing) <==> |args| < 2
    ensures v == Throw(RemoveCallbackNotFunction) <==> |args| >= 2 && !IsFunction(args[1])
  {
    if |args| < 2 then Throw(RemoveArgumentsMissing)
    else if !IsFunction(args[1]) then Throw(RemoveCallbackNotFunction)
    else Proceed
  }

  class RemoveWorker {
    const regionPtr: NativeRegion
    const keyPtr: NativeValue
    const asyncWorker: AsyncWorker

    constructor(regionPtr: NativeRegion, keyPtr: NativeValue, callback: Callback)
      ensures this.regionPtr == regionPtr && this.keyPtr == keyPtr
      ensures fresh(asyncWorker) && asyncWorker.callback == callback && asyncWorker.errmsg.None?
    {
      this.regionPtr := regionPtr;
      this.keyPtr := keyPtr;
      asyncWorker := new AsyncWorker(callback);
    }

    /** `Execute`: a null key is reported without a native call.  Otherwise
        the entry is destroyed.  The native destroy raises
        EntryNotFoundException for a missing key, reported as "Key not
        found in region."; any other exception, `fault`, is reported with
        its own message. */
    method Execute(fault: Option<NativeException>)
      modifies regionPtr, asyncWorker
      ensures keyPtr.NullPtr? ==> asyncWorker.errmsg == Some(InvalidKey) && regionPtr.entries == old(regionPtr.entries)
      ensures !keyPtr.NullPtr? && fault.Some? ==>
        regionPtr.entries == old(regionPtr.entries) &&
        asyncWorker.errmsg == Some(if fault.value.kind == EntryNotFound then KeyNotFound
                                   else GemfireExceptionMessage(fault.value))
      ensures !keyPtr.NullPtr? && fault.None? && keyPtr !in old(regionPtr.entries) ==>
        regionPtr.entries == old(regionPtr.entries) && asyncWorker.errmsg == Some(KeyNotFound)
      ensures !keyPtr.NullPtr? && fault.None? && keyPtr in old(regionPtr.entries) ==>
        regionPtr.entries == old(regionPtr.entries) - {keyPtr} && asyncWorker.errmsg == old(asyncWorker.errmsg)
    {
      if keyPtr.NullPtr? {
        asyncWorker.SetErrorMessage(InvalidKey);
        return;
      }
      var raised := if fault.Some? then fault
                    else if keyPtr !in regionPtr.entries then Some(NativeException(EntryNotFound, "EntryNotFoundException", ""))
                    else None;
      if raised.None? {
        regionPtr.entries := regionPtr.entries - {keyPtr};
      } else if raised.value.kind == EntryNotFound {
        asyncWorker.SetErrorMessage(KeyNotFound);
      } else {
        asyncWorker.SetErrorMessage(GemfireExceptionMessage(raised.value));
      }
    }

    /** No `HandleOKCallback` of its own: the callback gets no arguments. */
    method WorkComplete()
      modifies asyncWorker.callback
      ensures asyncWorker.errmsg.None? ==> asyncWorker.callback.calls == old(asyncWorker.callback.calls) + [[]]
      ensures asyncWorker.errmsg.Some? ==>
        asyncWorker.callback.calls == old(asyncWorker.callback.calls) + [[ErrorValue(asyncWorker.errmsg.value)]]
    {
      if asyncWorker.errmsg.None? {
        asyncWorker.HandleOKCallback();
      } else {
        asyncWorker.HandleErrorCallback();
      }
    }
  }

  /** `remove()`: after the checks, a worker for the encoded key is
      queued. */
  method Remove(region: Region, args: seq<HostValue>, keyFromHost: HostValue -> NativeValue) returns (r: Launch<RemoveWorker, Region>)
    ensures ValidateRemove(args).Throw? ==> r == Threw(ValidateRemove(args).message)
    ensures ValidateRemove(args).Proceed? ==>
      r.Queued? && r.returned == region && fresh(r.worker) && fresh(r.worker.asyncWorker) && fresh(r.worker.asyncWorker.callback) &&
      r.worker.regionPtr == region.regionPtr && r.worker.keyPtr == keyFromHost(args[0]) &&
      r.worker.asyncWorker.errmsg.None? &&
      r.worker.asyncWorker.callback.target == args[1] && r.worker.asyncWorker.callback.calls == []
  {
    var validation := ValidateRemove(args);
    if validation.Throw? {
      return Threw(validation.message);
    }
    var keyPtr := keyFromHost(args[0]);
    var callback := new Callback(args[1]);
    var worker := new RemoveWorker(region.regionPtr, keyPtr, callback);
    r := Queued(worker, region);
  }

  // ---------------------------------------------------------------------
  // executeFunction

  const FunctionCallbackMissing := "You must pass a callback to executeFunction()."
  const FunctionCallbackNotFunction := "You must pass a function as the callback to executeFunction()."

  /** The outcome of the checks of the region's `executeFunction()`: a
      message to throw, or the encoded arguments (the null pointer for
      none) and the index of the callback among the arguments. */
  datatype FunctionCall = CallRejected(message: string) | CallAccepted(functionArguments: NativeValue, callbackIndex: nat)

  /** The checks of the region's `executeFunction()`.  Any first argument
      but a function is taken as the name.  A function second argument is
      the callback, with no function arguments; otherwise the second
      argument is encoded as the function's arguments and the third must
      be the callback. */
  function ValidateExecuteFunction(args: seq<HostValue>): (c: FunctionCall)
    ensures c == CallRejected(Functions.NameRequired) <==> |args| == 0 || IsFunction(args[0])
    ensures c == CallRejected(FunctionCallbackMissing) <==>
      |args| > 0 && !IsFunction(args[0]) && (|args| == 1 || (|args| == 2 && !IsFunction(args[1])))
    ensures c == CallRejected(FunctionCallbackNotFunction) <==>
      |args| >= 3 && !IsFunction(args[0]) && !IsFunction(args[1]) && !IsFunction(args[2])
    ensures c.CallAccepted? ==> c.callbackIndex < |args| && IsFunction(args[c.callbackIndex]) && !IsFunction(args[0])
    ensures c == CallAccepted(NullPtr, 1) <==> |args| >= 2 && !IsFunction(args[0]) && IsFunction(args[1])
    ensures c.CallAccepted? && c.callbackIndex == 2 ==> c.functionArguments == Encode(args[1])
  {
    if |args| == 0 || IsFunction(args[0]) then CallRejected(Functions.NameRequired)
    else if |args| == 1 then CallRejected(FunctionCallbackMissing)
    else if IsFunction(args[1]) then CallAccepted(NullPtr, 1)
    else if |args| == 2 then CallRejected(FunctionCallbackMissing)
    else if !IsFunction(args[2]) then CallRejected(FunctionCallbackNotFunction)
    else CallAccepted(Encode(args[1]), 2)
  }

  /** The arguments the callback of a region function receives: when the
      last result is a native error, that error and the results before it;
      otherwise no error and all the results. */
  datatype FunctionReply = FunctionReply(error: HostValue, results: seq<HostValue>)

  function SplitTrailingError(resultsArray: seq<HostValue>): (r: FunctionReply)
    ensures r.error.Undefined? || IsNativeError(r.error)
    ensures IsNativeError(r.error) ==> r.results + [r.error] == resultsArray
    ensures r.error.Undefined? ==> r.results == resultsArray
    ensures r.error.Undefined? <==> resultsArray == [] || !IsNativeError(resultsArray[|resultsArray| - 1])
  {
    var length := |resultsArray|;
    if length > 0 && IsNativeError(resultsArray[length - 1]) then
      FunctionReply(resultsArray[length - 1], resultsArray[..length - 1])
    else
      FunctionReply(Undefined, resultsArray)
  }

  /** The index loop of `HandleOKCallback`: the error split off the end,
      and a fresh array of the results before it. */
  method SplitResults(resultsArray: seq<HostValue>) returns (error: HostValue, results: array<HostValue>)
    ensures fresh(results)
    ensures FunctionReply(error, results[..]) == SplitTrailingError(resultsArray)
  {
    error := Undefined;
    var length := |resultsArray|;
    if length > 0 && IsNativeError(resultsArray[length - 1]) {
      error := resultsArray[length - 1];
      var resultsExceptLast := new HostValue[length - 1];
      for i := 0 to length - 1
        invariant resultsExceptLast[..i] == resultsArray[..i]
      {
        resultsExceptLast[i] := resultsArray[i];
      }
      return error, resultsExceptLast;
    }
    results := new HostValue[length](i requires 0 <= i < length => resultsArray[i]);
  }

  /** With this codec the split never happens: a decoded result is never
      a native error, so the callback's error is always undefined and it
      receives every result. */
  lemma FunctionResultsNeverSplit(resultsPtr: seq<NativeValue>)
    ensures var resultsArray := Decode(CacheableVector(resultsPtr)).value.elements;
      SplitTrailingError(resultsArray) == FunctionReply(Undefined, resultsArray)
  {
    var ds := ItemDecodings(CacheableVector(resultsPtr));
    var resultsArray := Values(ds);
    if |resultsArray| > 0 {
      assert resultsArray[|resultsArray| - 1] == Decode(resultsPtr[|resultsPtr| - 1]).value;
    }
  }

  class ExecuteFunctionWorker {
    const regionPtr: NativeRegion
    const functionName: HostValue
    const functionArguments: NativeValue
    var resultsPtr: seq<NativeValue>
    /** The execution `FunctionService::onRegion` gives, once configured. */
    var executionPtr: Execution
    const asyncWorker: AsyncWorker

    constructor(regionPtr: NativeRegion, functionName: HostValue, functionArguments: NativeValue, callback: Callback)
      ensures this.regionPtr == regionPtr && this.functionName == functionName
      ensures this.functionArguments == functionArguments && resultsPtr == []
      ensures executionPtr == Execution(None, None, false)
      ensures fresh(asyncWorker) && asyncWorker.callback == callback && asyncWorker.errmsg.None?
    {
      this.regionPtr := regionPtr;
      this.functionName := functionName;
      this.functionArguments := functionArguments;
      resultsPtr := [];
      executionPtr := Execution(None, None, false);
      asyncWorker := new AsyncWorker(callback);
    }

    /** `Execute`: the arguments are applied only when present; the
        results are those the native execution returns, `results`, unless
        it raises `fault`. */
    method Execute(fault: Option<NativeException>, results: seq<NativeValue>)
      modifies this, asyncWorker
      ensures executionPtr == Execution(if functionArguments.NullPtr? then None else Some(functionArguments), None, false)
      ensures fault.Some? ==>
        resultsPtr == old(resultsPtr) && asyncWorker.errmsg == Some(GemfireExceptionMessage(fault.value))
      ensures fault.None? ==> resultsPtr == results && asyncWorker.errmsg == old(asyncWorker.errmsg)
    {
      executionPtr := Execution(None, None, false);
      if !functionArguments.NullPtr? {
        executionPtr := executionPtr.(arguments := Some(functionArguments));
      }
      if fault.Some? {
        asyncWorker.SetErrorMessage(GemfireExceptionMessage(fault.value));
      } else {
        resultsPtr := results;
      }
    }

    /** `HandleOKCallback`: the decoded results, with a trailing native
        error split off as the callback's error. */
    method HandleOKCallback()
      modifies asyncWorker.callback
      ensures var reply := SplitTrailingError(Decode(CacheableVector(resultsPtr)).value.elements);
        asyncWorker.callback.calls == old(asyncWorker.callback.calls) + [[reply.error, Array(reply.results)]]
    {
      var resultsArray := V8ValueFromGemfire(CacheableVector(resultsPtr));
      var error, results := SplitResults(resultsArray.value.elements);
      asyncWorker.callback.Call([error, Array(results[..])]);
    }

    method WorkComplete()
      modifies asyncWorker.callback
      ensures asyncWorker.errmsg.None? ==>
        var reply := SplitTrailingError(Decode(CacheableVector(resultsPtr)).value.elements);
        asyncWorker.callback.calls == old(asyncWorker.callback.calls) + [[reply.error, Array(reply.results)]]
      ensures asyncWorker.errmsg.Some? ==>
        asyncWorker.callback.calls == old(asyncWorker.callback.calls) + [[ErrorValue(asyncWorker.errmsg.value)]]
    {
      if asyncWorker.errmsg.None? {
        HandleOKCallback();
      } else {
        asyncWorker.HandleErrorCallback();
      }
    }
  }

  /** The region's `executeFunction()`: after the checks, a worker for the
      name and the encoded arguments is queued. */
  method ExecuteFunction(region: Region, args: seq<HostValue>) returns (r: Launch<ExecuteFunctionWorker, Region>)
    ensures ValidateExecuteFunction(args).CallRejected? ==> r == Threw(ValidateExecuteFunction(args).message)
    ensures ValidateExecuteFunction(args).CallAccepted? ==>
      var call := ValidateExecuteFunction(args);
      r.Queued? && r.returned == region && fresh(r.worker) && fresh(r.worker.asyncWorker) && fresh(r.worker.asyncWorker.callback) &&
      r.worker.regionPtr == region.regionPtr && r.worker.functionName == args[0] &&
      r.worker.functionArguments == call.functionArguments && r.worker.asyncWorker.errmsg.None? &&
      r.worker.asyncWorker.callback.target == args[call.callbackIndex] && r.worker.asyncWorker.callback.calls == []
  {
    var call := ValidateExecuteFunction(args);
    if call.CallRejected? {
      return Threw(call.message);
    }
    var callback := new Callback(args[call.callbackIndex]);
    var worker := new ExecuteFunctionWorker(region.regionPtr, args[0], call.functionArguments, callback);
    r := Queued(worker, region);
  }

  // ---------------------------------------------------------------------
  // query, selectValue and existsValue

  datatype QueryKind = QueryResults | SelectValue | ExistsValue

  /** `T::name()` of each query worker. */
  function QueryName(kind: QueryKind): string {
    match kind
    case QueryResults => "query()"
    case SelectValue => "selectValue()"
    case ExistsValue => "existsValue()"
  }

  function QueryArgumentsMissing(kind: QueryKind): string {
    "You must pass a query predicate string and a callback to " + QueryName(kind) + "."
  }

  function QueryCallbackNotFunction(kind: QueryKind): string {
    "You must pass a function as the callback to " + QueryName(kind) + "."
  }

  /** The checks `Query<T>` shares among the three query methods. */
  function ValidateQuery(kind: QueryKind, args: seq<HostValue>): (v: Validation)
    ensures v == Proceed <==> |args| >= 2 && IsFunction(args[1])
    ensures v == Throw(QueryArgumentsMissing(kind)) <==> |args| < 2
    ensures v == Throw(QueryCallbackNotFunction(kind)) <==> |args| >= 2 && !IsFunction(args[1])
  {
    assert QueryArgumentsMissing(kind)[16] != QueryCallbackNotFunction(kind)[16];
    if |args| < 2 then Throw(QueryArgumentsMissing(kind))
    else if !IsFunction(args[1]) then Throw(QueryCallbackNotFunction(kind))
    else Proceed
  }

  /** The three methods' messages differ, and differ only in the method
      name they end with. */
  lemma QueryMessagesDiffer(kind: QueryKind, other: QueryKind)
    requires kind != other
    ensures QueryArgumentsMissing(kind) != QueryArgumentsMissing(other)
    ensures QueryCallbackNotFunction(kind) != QueryCallbackNotFunction(other)
    ensures QueryArgumentsMissing(kind)[..57] == QueryArgumentsMissing(other)[..57]
    ensures QueryCallbackNotFunction(kind)[..44] == QueryCallbackNotFunction(other)[..44]
  {
    var a, b := QueryArgumentsMissing(kind), QueryArgumentsMissing(other);
    var n, m := QueryName(kind), QueryName(other);
    if |n| == |m| {
      assert a[57] == n[0] && b[57] == m[0];
    }
    var c, d := QueryCallbackNotFunction(kind), QueryCallbackNotFunction(other);
    if |n| == |m| {
      assert c[44] == n[0] && d[44] == m[0];
    }
  }

  /** The result a query worker's native call returns, by kind. */
  datatype QueryResult = SelectResults(results: seq<NativeValue>) | Value(value: NativeValue) | Exists(found: bool)

  predicate ResultOfKind(kind: QueryKind, result: QueryResult) {
    match kind
    case QueryResults => result.SelectResults?
    case SelectValue => result.Value?
    case ExistsValue => result.Exists?
  }

  /** The host value of a query result: select results as the array
      `arrayFromSelectResults` builds, a value decoded, a boolean as is. */
  function QueryResultValue(result: QueryResult): HostValue {
    match result
    case SelectResults(results) => Decode(CacheableVector(results)).value
    case Value(value) => Decode(value).value
    case Exists(found) => Boolean(found)
  }

  class QueryWorker {
    const kind: QueryKind
    const regionPtr: NativeRegion
    const queryPredicate: HostValue
    var resultPtr: Option<QueryResult>
    const asyncWorker: AsyncWorker

    /** A worker with no error reported always holds a result once it has
        run. */
    ghost predicate Completable()
      reads this, asyncWorker
    {
      asyncWorker.errmsg.Some? || (resultPtr.Some? && ResultOfKind(kind, resultPtr.value))
    }

    constructor(kind: QueryKind, regionPtr: NativeRegion, queryPredicate: HostValue, callback: Callback)
      ensures this.kind == kind && this.regionPtr == regionPtr && this.queryPredicate == queryPredicate
      ensures resultPtr.None?
      ensures fresh(asyncWorker) && asyncWorker.callback == callback && asyncWorker.errmsg.None?
    {
      this.kind := kind;
      this.regionPtr := regionPtr;
      this.queryPredicate := queryPredicate;
      resultPtr := None;
      asyncWorker := new AsyncWorker(callback);
    }

    /** `Execute`: the native query's `result`, unless it raises `fault`. */
    method Execute(fault: Option<NativeException>, result: QueryResult)
      requires ResultOfKind(kind, result)
      modifies this, asyncWorker
      ensures Completable()
      ensures fault.Some? ==>
        resultPtr == old(resultPtr) && asyncWorker.errmsg == Some(GemfireExceptionMessage(fault.value))
      ensures fault.None? ==> resultPtr == Some(result) && asyncWorker.errmsg == old(asyncWorker.errmsg)
    {
      if fault.Some? {
        asyncWorker.SetErrorMessage(GemfireExceptionMessage(fault.value));
      } else {
        resultPtr := Some(result);
      }
    }

    method HandleOKCallback()
      requires resultPtr.Some?
      modifies asyncWorker.callback
      ensures asyncWorker.callback.calls ==
        old(asyncWorker.callback.calls) + [[Undefined, QueryResultValue(resultPtr.value)]]
    {
      var value: HostValue;
      match resultPtr.value {
        case SelectResults(results) =>
          var resultsArray := ArrayFromSelectResults(results);
          value := resultsArray.value;
        case Value(v) =>
          var decoded := V8ValueFromGemfire(v);
          value := decoded.value;
        case Exists(found) =>
          value := Boolean(found);
      }
      asyncWorker.callback.Call([Undefined, value]);
    }

    method WorkComplete()
      requires Completable()
      modifies asyncWorker.callback
      ensures asyncWorker.errmsg.None? ==>
        asyncWorker.callback.calls == old(asyncWorker.callback.calls) + [[Undefined, QueryResultValue(resultPtr.value)]]
      ensures asyncWorker.errmsg.Some? ==>
        asyncWorker.callback.calls == old(asyncWorker.callback.calls) + [[ErrorValue(asyncWorker.errmsg.value)]]
    {
      if asyncWorker.errmsg.None? {
        HandleOKCallback();
      } else {
        asyncWorker.HandleErrorCallback();
      }
    }
  }

  /** `Query<T>`: after the checks, a worker of the method's kind is
      queued with the predicate. */
  method Query(kind: QueryKind, region: Region, args: seq<HostValue>) returns (r: Launch<QueryWorker, Region>)
    ensures ValidateQuery(kind, args).Throw? ==> r == Threw(ValidateQuery(kind, args).message)
    ensures ValidateQuery(kind, args).Proceed? ==>
      r.Queued? && r.returned == region && fresh(r.worker) && fresh(r.worker.asyncWorker) && fresh(r.worker.asyncWorker.callback) &&
      r.worker.kind == kind && r.worker.regionPtr == region.regionPtr && r.worker.queryPredicate == args[0] &&
      r.worker.resultPtr.None? && r.worker.asyncWorker.errmsg.None? &&
      r.worker.asyncWorker.callback.target == args[1] && r.worker.asyncWorker.callback.calls == []
  {
    var validation := ValidateQuery(kind, args);
    if validation.Throw? {
      return Threw(validation.message);
    }
    var callback := new Callback(args[1]);
    var worker := new QueryWorker(kind, region.regionPtr, args[0], callback);
    r := Queued(worker, region);
  }
}
