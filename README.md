# node-gemfire native addon, modelled in Dafny

node-gemfire lets Node.js programs use a GemFire cache. The work is done by a native addon (`src/*.cpp`) that sits between V8 values and the GemFire native client, plus a small loader (`lib/binding.js`). This project models the addon's own logic and proves properties of it:

- **value codec** (`codec.dfy`, module `Codec`): from `src/conversions.cpp`. It translates host values to native cacheables (`gemfireValueFromV8`, `toPdxInstance`) and back (`v8ValueFromGemfire`, `fromPdxInstance`, `v8ObjectFromGemfireStruct`, `arrayFromSelectResults`), together with the UTF-16 buffer copies.
  - The two directions are recursive functions.
  - The source's loops are methods proved equal to those functions.
- **region methods** (`region.dfy`, module `RegionMethods`): from `src/region.cpp`. Each method first runs synchronous argument checks with exact messages. It then queues a worker whose `Execute` sets result and error fields, and whose completion calls the callback once.
- **function execution stream** (`functions.dfy`, module `Functions`): from `src/functions.cpp`. This covers the option parsing of `executeFunction` and the worker that turns streamed results into "data", "error" and "end" events.
- **two hand-off buffers** (`event_stream.dfy`, `result_stream.dfy`): from `src/event_stream.cpp` and `src/result_stream.cpp`. Each is a class with a `seq` field and ghost histories of what was added and drained.
- **region event registry** (`region_event_registry.dfy`): the fan-out of drained entry events as "create" events.
- **region shortcut names** (`region_shortcuts.dfy`).
- **`SelectResults::toArray`** (`select_results.dfy`).
- **the EventEmitter mixin** of `lib/binding.js` (`binding.dfy`).

Shared pieces live in two modules:

- `common.dfy`: `Option`, reading a buffer up to its terminator, and decimal formatting.
- `runtime.dfy`:
  - a native region as a map from keys to values;
  - native exceptions as name and message;
  - EventEmitters and callbacks seen through the calls made on them;
  - the error-message and callback protocol of NAN's async worker.

Host values are the V8 kinds the addon tests for. `IsObject` holds for dates, arrays, functions, errors and plain objects, as in V8. The encoder tests kinds in the source's order. Numbers are opaque 64-bit tokens.

Where the code departs from the behaviour the project documents for its codec and its region methods, the model follows the code:

- A region's `executeFunction` accepts any non-function first argument as the name. Only the cache-level `executeFunction` of `src/functions.cpp` demands a string.
- A string read back from the cache is cut at its first NUL code unit, and so is a property name stored as a PDX field name.
- A native kind the decoder has no branch for gives `undefined`, and "Unknown typeId: <id>" is raised.
- Sparse arrays are documented to keep their holes, but the encoder reads every slot with `Get(i)` (src/conversions.cpp:155). A hole is therefore stored like an explicit `undefined` (the null pointer, :164), and the decoder sets that slot to `undefined` (:206): `[, 'x']` comes back as `[undefined, 'x']`.

## Model

| member | source | states |
|---|---|---|
| Codec.EncodeShape | src/conversions.cpp:133-168 | the encoder never yields a kind the decoder rejects; exactly `undefined` encodes to the null pointer (with a PDX factory that never raises) and exactly `null` to CacheableUndefined |
| Codec.GemfireValueFromV8 | src/conversions.cpp:133-168 | the type-dispatch method, with its element loop, computes `Encode` |
| Codec.KeyCopyCut | src/conversions.cpp:72-75 | the copied field name is the property name up to its first NUL: NUL-free, a prefix of the name, and the whole name exactly when the name holds no NUL |
| Codec.KeyCopyCollides | src/conversions.cpp:72-75 | two names that differ only after a NUL are copied to the same field name, so an object holding both is not well formed |
| Codec.ToPdxInstance | src/conversions.cpp:56-91 | the field loop writes one PDX field per own property, named by the NUL-cut copy of its name, an object-array field exactly for array values, as `EncodeObject` does |
| Codec.EncodeArrayElements | src/conversions.cpp:150-158 | an array encodes to an object array of the same length, element i from element i |
| Codec.DateEncodingExact | src/conversions.cpp:143-149 | `tv_usec` is below 1000000 and a multiple of 1000, and `tv_sec*1000 + tv_usec/1000` is the millisecond count again |
| Codec.ToInt64 | src/conversions.cpp:190-193 | `milliseconds()` read as int64 lies in the signed 64-bit range and agrees with the stored count modulo 2^64 |
| Codec.DateRoundTrip | src/conversions.cpp:142-149 | a time value within ±8.64e15 ms, negative ones included, survives the uint64 conversion, the timeval and the int64 read-back |
| Codec.WstringFromV8String | src/conversions.cpp:25-38 | the copy into a terminated buffer yields the code units up to the first zero |
| Codec.V8StringFromWstring | src/conversions.cpp:40-54 | the copy back truncates each wide character to 16 bits and stops at the first zero |
| Codec.ReadTerminated | src/conversions.cpp:32-34 | scanning a terminated buffer yields exactly its elements before the first zero |
| Codec.StringRoundTrip | src/conversions.cpp:25-54 | a string stored and read back is its prefix before the first NUL, and a NUL-free string comes back unchanged |
| Codec.DecodeShape | src/conversions.cpp:170-230 | `null` comes back exactly from CacheableUndefined, `undefined` exactly from the null pointer or an unknown kind, and a decoded value is never a function or an `Error` |
| Codec.V8ValueFromGemfire | src/conversions.cpp:170-230 | the decoding method computes `Decode` |
| Codec.DecodeElements | src/conversions.cpp:200-220 | the object-array and vector loops set element i of a new array of the same length to the decoding of item i, as `Decode` does |
| Codec.DecodeArrayElements | src/conversions.cpp:200-220 | object arrays and vectors decode to arrays of the same length, element i decoded from item i |
| Codec.DecodeStruct | src/conversions.cpp:248-260 | a struct decodes to a plain object |
| Codec.DecodeStructFields | src/conversions.cpp:248-260 | with distinct field names, a struct decodes to one property per field, in field order, named by the field and holding its decoding |
| Codec.V8ObjectFromGemfireStruct | src/conversions.cpp:248-260 | the field loop sets property `getFieldName(i)` to the decoding of field i, as `DecodeStruct` does |
| Codec.DecodePdx | src/conversions.cpp:93-131 | a PDX instance decodes to a plain object, `{}` raising nothing when it has no field names |
| Codec.DecodePdxFields | src/conversions.cpp:93-131 | with distinct field names, a PDX instance decodes to one property per field, in field order, named by the field and holding the decoding of that field |
| Codec.FromPdxInstance | src/conversions.cpp:93-131 | the field loop sets one property per field name to the decoding of the field `getField` finds under that name |
| Codec.ArrayFromSelectResults | src/conversions.cpp:232-246 | results appended in iterator order give the array a vector of the same results decodes to |
| Codec.DecodeRaises | src/conversions.cpp:221-229 | decoding a value whose PDX field names are distinct raises exactly when an unknown kind occurs in it, and a lone unknown kind raises its own id |
| Codec.UnknownTypeIdMessageNamesId | src/conversions.cpp:225-227 | the "Unknown typeId: " message carries the id in decimal, with a minus sign when negative |
| Codec.RoundTrip | src/conversions.cpp:133-230 | a host value whose property names stay distinct when cut at NUL, encoded and decoded, raises nothing and comes back as `RoundTripped`: strings and property names cut at NUL, functions and errors as plain objects, dates (any JavaScript time value, negative ones included) unchanged; arrays are dense |
| Codec.RoundTrippedIdentity | src/conversions.cpp:133-230 | a value comes back unchanged exactly when it is plain data: NUL-free strings and property names, no functions or errors (arrays are dense) |
| Runtime.Emitter.EmitEvent | src/events.cpp:8-22 | one emission with the event name and payload is appended |
| Runtime.Emitter.EmitError | src/events.cpp:24-26 | an "error" emission carrying the error is appended |
| EventStreams.V8Object | src/event_stream.cpp:42-52 | the payload's `key`, `oldValue` and `newValue` are the decoded key, old value and new value |
| EventStreams.EventStream.Add | src/event_stream.cpp:12-20 | the event is appended to the pending events and to the added history |
| EventStreams.EventStream.NextEvents | src/event_stream.cpp:22-40 | returns every pending event in insertion order and leaves none pending; the drained history then equals the added history |
| ResultStreams.ResultStream.Add | src/result_stream.cpp:7-12 | the result is appended to the buffer and to the added history |
| ResultStreams.ResultStream.End | src/result_stream.cpp:14-22 | the end signal goes out exactly when the buffer is empty, so every added result has been drained before it |
| ResultStreams.ResultStream.NextResults | src/result_stream.cpp:36-52 | a fresh vector of all buffered results in arrival order, empty for an empty buffer; the buffer is left empty |
| RegionEventRegistries.CreatePayload | src/region_event_registry.cpp:54-56 | the payload's `key` and `value` are the decoded key and new value |
| RegionEventRegistries.CreatesForAppend | src/region_event_registry.cpp:44-68 | publishing in two rounds emits what publishing once does |
| RegionEventRegistries.CreatesForOtherRegion | src/region_event_registry.cpp:58-66 | a wrapper of a region no event belongs to receives nothing |
| RegionEventRegistries.CreatesForSameRegion | src/region_event_registry.cpp:58-66 | a wrapper of the events' region receives one "create" per event, in drain order |
| RegionEventRegistries.RegionEventRegistry.Add | src/region_event_registry.cpp:14-21 | the wrapper joins the set once (set semantics) and its region gets the listener |
| RegionEventRegistries.RegionEventRegistry.Remove | src/region_event_registry.cpp:23-25 | only the given wrapper leaves the set |
| RegionEventRegistries.RegionEventRegistry.Emit | src/region_event_registry.cpp:27-29 | the event is only queued, whatever its name |
| RegionEventRegistries.RegionEventRegistry.PublishEvents | src/region_event_registry.cpp:44-68 | drains the queue; every registered wrapper receives one "create" per drained event of its own region, in order, and nothing else |
| RegionEventRegistries.RegionEventRegistry.PublishEvent | src/region_event_registry.cpp:58-66 | the inner loop: "create" on exactly the wrappers whose region is the event's |
| RegionShortcuts.GetRegionShortcut | src/region_shortcuts.cpp:8-22 | a named shortcut comes back exactly for its own name (exact, case-sensitive); every other string gives the invalid shortcut |
| RegionShortcuts.ShortcutByName | src/region_shortcuts.cpp:9-19 | each of the five shortcuts is found under its name |
| QueryResults.SelectResults.ToArray | src/select_results.cpp:38-52 | an array of `size()` elements, element i the decoding of result i; the result set is not changed |
| Binding.Inherited | lib/binding.js:5-9 | every source key is present with the source's value, and target keys absent from the source keep their values |
| Binding.InheritedIdempotent | lib/binding.js:5-9 | applying `inherits` twice equals applying it once |
| Binding.Inherits | lib/binding.js:5-9 | the in-place key loop leaves the target prototype as `Inherited` says and never changes the source prototype |
| Binding.Bind | lib/binding.js:11-21 | EventEmitter's prototype is mixed into `Region`'s before the addon is returned |
| Binding.MixinKeepsRegionMethods | lib/binding.js:18-20 | after the mixin, regions have every EventEmitter method, and every native region method EventEmitter does not shadow |
| Functions.ParseExecuteFunction | src/functions.cpp:130-173 | each of the three messages is thrown exactly under its condition, and an accepted call names the function by its first argument |
| Functions.ParsedRequest | src/functions.cpp:143-173 | an array is the arguments with no filter; an options object gives `arguments` and a key-by-key encoded filter; undefined ones become null |
| Functions.ResultEvents | src/functions.cpp:94-105 | one event per result, in order, decoded: "error" for a native error, "data" otherwise |
| Functions.ResultEventsAppend | src/functions.cpp:89-108 | draining in several batches emits what draining once does |
| Functions.ResultsAreData | src/functions.cpp:97-105 | with this codec every streamed result is a "data" event |
| Functions.ExecuteFunctionWorker.Execute | src/functions.cpp:62-80 | arguments and filter are applied only when present, the collector always, and an exception becomes the error message |
| Functions.ExecuteFunctionWorker.ExecuteComplete | src/functions.cpp:82-87 | "error" is emitted exactly when the error message is not empty |
| Functions.ExecuteFunctionWorker.Data | src/functions.cpp:89-108 | the stream is drained and exactly `ResultEvents` of what was drained is emitted |
| Functions.ExecuteFunctionWorker.End | src/functions.cpp:110-115 | "end" is emitted |
| Functions.ExecuteFunction | src/functions.cpp:130-188 | a rejected call throws and starts nothing; an accepted one queues a worker holding the parsed request and returns its fresh emitter |
| RegionMethods.Clear | src/region.cpp:41-49 | the region is emptied and `true` returned |
| RegionMethods.Name | src/region.cpp:492-499 | the region's name read as a C string: unchanged unless it holds a NUL |
| RegionMethods.Inspect | src/region.cpp:479-490 | `[Region name="<name>"]`, the name readable between fixed prefix and suffix |
| RegionMethods.ValidatePut | src/region.cpp:101-109 | fewer than three arguments, or a non-function third, throw their own messages; the checks precede encoding |
| RegionMethods.PutWorker.Execute | src/region.cpp:69-80 | a null key gives "Invalid GemFire key." without touching the region; otherwise the entry is stored or the exception reported |
| RegionMethods.PutWorker.Fail | src/region.cpp:82-85 | sets the message and completes at once: the callback gets that error |
| RegionMethods.PutWorker.WorkComplete | src/region.cpp:87-91 | the callback gets the error, or no error and the decoded value |
| RegionMethods.Put | src/region.cpp:98-128 | an `undefined` value, the only one encoding to null when the PDX factory does not raise, completes the worker with "Unable to put value undefined" and is not queued; others queue; both return the region |
| RegionMethods.ValidateGet | src/region.cpp:170-185 | three distinct messages: no arguments, one argument, non-function second |
| RegionMethods.GetWorker.Execute | src/region.cpp:139-154 | a null key gives "Invalid GemFire key."; a value that is still null, also after an exception, gives "Key not found in region.", which supersedes the exception's message |
| RegionMethods.GetWorker.WorkComplete | src/region.cpp:156-160 | the callback gets the error, or no error and the decoded value |
| RegionMethods.Get | src/region.cpp:167-196 | after the checks a worker for the encoded key is queued and the region returned |
| RegionMethods.ValidateGetAll | src/region.cpp:238-251 | a missing or non-array key list is rejected before the callback is checked |
| RegionMethods.EntriesFor | src/region.cpp:215-216 | the native `getAll` result holds exactly the requested keys present in the region, with their values |
| RegionMethods.GetAllWorker.Execute | src/region.cpp:208-220 | the results start empty; a null key vector, dereferenced outside the `try`, terminates the process; an empty key list makes no native call; otherwise the requested entries, or the exception |
| RegionMethods.GetAllWorker.WorkComplete | src/region.cpp:222-227 | the callback gets the error, or no error and the decoded result map |
| RegionMethods.GetAll | src/region.cpp:235-264 | after the checks a worker for the encoded keys, possibly the null vector, is queued and the region returned |
| RegionMethods.ValidatePutAll | src/region.cpp:292-305 | a missing or non-object first argument is rejected before the callback is checked |
| RegionMethods.PutAllWorker.Execute | src/region.cpp:276-282 | every entry of the map is stored over the region's, or the exception reported; a null map, dereferenced inside the `try`, reports the null-pointer exception and stores nothing |
| RegionMethods.PutAllWorker.WorkComplete | src/region.cpp:266-287 | the callback gets the error, or no arguments |
| RegionMethods.PutAll | src/region.cpp:289-316 | after the checks a worker for the encoded map, possibly the null map, is queued and the region returned |
| RegionMethods.ValidateRemove | src/region.cpp:350-358 | fewer than two arguments, or a non-function second, throw their own messages |
| RegionMethods.RemoveWorker.Execute | src/region.cpp:328-341 | a null key gives "Invalid GemFire key."; a missing entry (EntryNotFoundException) gives "Key not found in region."; other exceptions their own message; otherwise the entry is removed |
| RegionMethods.RemoveWorker.WorkComplete | src/region.cpp:318-345 | the callback gets the error, or no arguments |
| RegionMethods.Remove | src/region.cpp:347-371 | after the checks a worker for the encoded key is queued and the region returned |
| RegionMethods.ValidateExecuteFunction | src/region.cpp:435-467 | a missing or function first argument, a missing callback and a non-function third argument each throw their message; a function second argument is the callback with no arguments, otherwise the second is encoded and the third is the callback |
| RegionMethods.SplitTrailingError | src/region.cpp:400-423 | a trailing native error is the callback's error and the results before it reassemble the original; otherwise no error and all results |
| RegionMethods.SplitResults | src/region.cpp:406-419 | the index loop copies the first length-1 results into a fresh array exactly as `SplitTrailingError` says |
| RegionMethods.FunctionResultsNeverSplit | src/region.cpp:404-419 | with this codec no decoded result is a native error, so the error is undefined and all results are passed |
| RegionMethods.ExecuteFunctionWorker.Execute | src/region.cpp:385-398 | arguments are applied only when present; the results are the native results, or the exception is reported |
| RegionMethods.ExecuteFunctionWorker.WorkComplete | src/region.cpp:400-424 | the callback gets the error, or the split of the decoded results |
| RegionMethods.ExecuteFunction | src/region.cpp:432-477 | after the checks a worker with the name, encoded arguments and the right callback is queued and the region returned |
| RegionMethods.ValidateQuery | src/region.cpp:586-602 | fewer than two arguments, or a non-function second, throw the message for the method |
| RegionMethods.QueryMessagesDiffer | src/region.cpp:539-602 | the three methods' messages share their text and differ in the method name |
| RegionMethods.QueryWorker.Execute | src/region.cpp:531-537 | the native result, or the exception's message |
| RegionMethods.QueryWorker.WorkComplete | src/region.cpp:512-516 | the callback gets the error, or no error and the decoded result |
| RegionMethods.Query | src/region.cpp:586-613 | after the checks a worker of the method's kind is queued with the predicate and the region returned |

The error split in a region's function results can never fire with this codec (`RegionMethods.FunctionResultsNeverSplit`). The same holds for the "error" branch of the streamed `Data` (`Functions.ResultsAreData`): `v8ValueFromGemfire` never builds an `Error` object. Both branches are still modelled as written.

`EventStream::Event::getName` and `getRegion` read the fields `eventName` and `entryEvent.region` of `EventStreams.Event`.

## Left out

- GemFire native calls (`put`, `get`, `getAll`, `putAll`, `destroy`, `query`, `selectValue`, `existsValue`, `clear`, function execution) are foreign. The region is a map, and each `Execute` takes the exception the call raises, and the results it returns, as parameters.
- `gemfireKeyFromV8`, `gemfireKeysFromV8`, `gemfireHashMapFromV8` and the decoding of a hash map are not defined in the modelled files. They are function-typed parameters. A key that encodes to the null pointer stands for the null key, and a key vector or map that encodes to `None` stands for the null pointer.
- RegionMethods.GetAllWorker.Execute: dereferencing a null key vector raises outside the `try`, and an exception escaping a worker thread ends the process. The model reports this as `terminates` and does not model what follows.
- RegionMethods.PutAllWorker.Execute: the null-pointer exception that the client's shared pointer raises for a null map is not defined in the modelled files. It is the parameter `nullPointer`.
- RegionMethods.QueryWorker.WorkComplete: the `v8ValueFromGemfire` overloads for `SelectResultsPtr` and `bool` are not defined in the modelled files. Select results are decoded as `arrayFromSelectResults` does, and a boolean as itself.
- RegionMethods.ExecuteFunctionWorker.WorkComplete: the `v8ValueFromGemfire` overload for `CacheableVectorPtr` (declared at src/conversions.hpp:19) is not defined in the modelled files. The function results are decoded as the generic decoder decodes a `CacheableVector`: an array of the items' decodings.
- RegionMethods.EntriesFor: which keys a native `getAll` leaves out of its result is the native client's. The model keeps the requested keys present in the region.
- RegionMethods.RemoveWorker.Execute: a missing key is taken to raise EntryNotFoundException, as the native destroy does. That part of the native client is not part of this model.
- Threads, mutexes, libuv wake-ups and condition variables are not modelled. This covers `uv_mutex_*`, `uv_async_send`, `uv_ref`/`uv_unref`, `waitUntilFinished`, `resultsProcessed`, `endProcessed`, and the wait loop of `ResultStream::end`, which is modelled as one test of its condition. Workers run sequentially: `Execute`, then completion once.
- Numbers are opaque 64-bit tokens: NaN, infinities and the `double` arithmetic of dates are not modelled. A date's time value is an integer number of milliseconds; an invalid date (NaN time) is not modelled.
- Codec.Encode: converting a negative `double` to `uint64` is undefined in C++. The model takes the time value modulo 2^64, as two's-complement hardware does, and reads it back as `int64`. Codec.RoundTrip is stated only for time values within the JavaScript range of ±8.64e15 ms.
- Codec.Decode: a native date whose `milliseconds()` lies outside ±8.64e15 would become an invalid date in V8. The model keeps the int64 count as the time value. Dates stored from JavaScript time values read back within that range (Codec.DateRoundTrip).
- Codec.Encode: every string is stored as a `CacheableString` (id 42), whatever its length. Whether the native client gives a wide string of 65536 or more units one of the long-string kinds (88, 89), which the decoder has no branch for, is the native client's concern and not part of this model. Codec.RoundTrip covers long strings only under this assumption. The addon's own tests store and read back strings of 65536 units.
- Codec.Decode: every kind id above `CacheableStringHuge` (89) is taken to be a PDX instance, as the decoder assumes (src/conversions.cpp:221-223). A non-PDX native kind with such an id is not modelled; `Unhandled` ids are at most 89.
- The random PDX class name (`randomString`) is not modelled. A PDX instance is its list of fields.
- UTF-8 conversions (`NanUtf8String`, `String::Utf8Value`, `ToDetailString`) are not modelled. Property names are Dafny strings; a function name or query predicate is kept as the host value passed.
- Codec.DecodeRaises and Codec.RoundTrip assume that PDX field names are distinct, and that host property names stay distinct once cut at their first NUL. This holds for instances the encoder builds from such objects. For an object whose names collide once cut (Codec.KeyCopyCollides), the encoder writes the same field name twice. What the native PDX factory then does is not part of this model: the model keeps both fields, and `getField` reads the first, as `Decode` does.
- Codec.Decode: native PDX and struct field names are read back as C strings (src/conversions.cpp:107, 122, 255). The model takes a native field name as read. Field names the encoder writes are NUL-free (Codec.KeyCopyCut), so this only matters for instances written by other clients.
- Codec.EncodeShape: the native PDX factory (`createPdxInstanceFactory`, `writeObject`, `writeObjectArray`, `create`) is foreign and taken never to raise. When it does raise, `toPdxInstance` returns the null pointer (src/conversions.cpp:86-90), so such an object, or an array holding one, also encodes to null. "Only `undefined` encodes to the null pointer" holds under this assumption only. Likewise `fromPdxInstance` turns an exception from `getFieldNames` or `getField` into `undefined` (src/conversions.cpp:127-130), which Codec.Decode does not model.
- RegionMethods.Put: under the same assumption, only `undefined` fails with "Unable to put value undefined". A value whose PDX build raises would also encode to null. `put` would then fail with "Unable to put value " followed by that value's detail string (src/region.cpp:51-54, 121-122), with the factory's exception pending as well. The model does not capture this.
- Codec.RoundTrip: arrays are dense in the model; a hole cannot be represented. In the source a hole is read as `undefined`, encoded like an explicit `undefined`, and comes back as one, so a sparse array does not keep its holes.
- Codec.RoundTrippedIdentity: "plain data comes back unchanged" is about dense arrays only. A sparse array, even of NUL-free strings, comes back with its holes filled by explicit `undefined` elements.
- The prototype chain is not modelled. `GetOwnPropertyNames` and `for…in` see the modelled own properties, and functions are plain objects with an acyclic property list.
- Exceptions thrown while decoding inside a callback or event (`NanThrowError` in `v8ValueFromGemfire`) are not carried to the JavaScript caller. Decoded values keep the raised ids in `Decoded.thrown`.
- `ThrowGemfireException`, the cache (`src/cache.cpp`), module registration and the stale `v8_object_formatter.cpp` and `NodeCacheListener` files are not part of this model.
