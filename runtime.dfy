/** What the addon's operations act on: the native region behind a
    `Region` wrapper, the exceptions the native client raises, the
    wrapper object itself and the EventEmitter objects events go to.

    The native client is not part of the model.  A region is an abstract
    map from keys to values, and an exception is the name and message it
    reports. */
module Runtime {
  import opened Common
  import opened Codec

  /** A native region: its name and its entries. */
  class NativeRegion {
    const name: string
    var entries: map<NativeValue, NativeValue>

    constructor(name: string, entries: map<NativeValue, NativeValue>)
      ensures this.name == name && this.entries == entries
    {
      this.name := name;
      this.entries := entries;
    }
  }

  datatype ExceptionKind = EntryNotFound | OtherException

  /** A `gemfire::Exception`: the class it is caught as, its name and its
      message. */
  datatype NativeException = NativeException(kind: ExceptionKind, name: string, message: string)

  /** "name: message", the text src/exceptions.cpp makes of an exception. */
  function GemfireExceptionMessage(e: NativeException): string {
    e.name + ": " + e.message
  }

  /** One call of `emit(event, args...)` on an EventEmitter. */
  datatype Emission = Emission(event: string, args: seq<HostValue>)

  /** A JavaScript EventEmitter, seen through the events emitted on it. */
  class Emitter {
    var emitted: seq<Emission>

    constructor()
      ensures emitted == []
    {
      emitted := [];
    }

    /** `emitEvent(emitter, name)` and `emitEvent(emitter, name, payload)`. */
    method EmitEvent(name: string, payload: seq<HostValue>)
      modifies this
      ensures emitted == old(emitted) + [Emission(name, payload)]
    {
      emitted := emitted + [Emission(name, payload)];
    }

    /** `emitError(emitter, error)`: an "error" event carrying `error`. */
    method EmitError(error: HostValue)
      modifies this
      ensures emitted == old(emitted) + [Emission("error", [error])]
    {
      EmitEvent("error", [error]);
    }
  }

  /** A `NanCallback`: the JavaScript function it holds and the argument
      lists it has been called with. */
  class Callback {
    const target: HostValue
    var calls: seq<seq<HostValue>>

    constructor(target: HostValue)
      ensures this.target == target && calls == []
    {
      this.target := target;
      calls := [];
    }

    method Call(argv: seq<HostValue>)
      modifies this
      ensures calls == old(calls) + [argv]
    {
      calls := calls + [argv];
    }
  }

  /** The part of a `NanAsyncWorker` every worker shares: its callback
      and the error message `SetErrorMessage` leaves; the last message set
      wins. */
  class AsyncWorker {
    const callback: Callback
    var errmsg: Option<string>

    constructor(callback: Callback)
      ensures this.callback == callback && errmsg.None?
    {
      this.callback := callback;
      errmsg := None;
    }

    method SetErrorMessage(message: string)
      modifies this
      ensures errmsg == Some(message)
    {
      errmsg := Some(message);
    }

    /** The default `HandleErrorCallback`: the callback is called with one
        `Error` carrying the message. */
    method HandleErrorCallback()
      requires errmsg.Some?
      modifies callback
      ensures callback.calls == old(callback.calls) + [[ErrorValue(errmsg.value)]]
    {
      callback.Call([ErrorValue(errmsg.value)]);
    }

    /** The default `HandleOKCallback`: the callback is called with no
        arguments. */
    method HandleOKCallback()
      modifies callback
      ensures callback.calls == old(callback.calls) + [[]]
    {
      callback.Call([]);
    }
  }

  /** What a native method does with a call: it throws with `message` and
      returns undefined, or it hands `worker` to the thread pool, or (only
      `put()` does this) it completes `worker` at once with an error; in the
      last two cases the method returns `returned` to JavaScript. */
  datatype Launch<W, T> = Threw(message: string) | Queued(worker: W, returned: T) | Completed(worker: W, returned: T)

  /** A `node_gemfire::Region`: the native region it wraps and the events
      emitted on its JavaScript object, an EventEmitter once the binding
      has mixed EventEmitter into `Region`.  `GetRegion` wraps only
      non-null region pointers, so the pointer is never null here. */
  class Region {
    const regionPtr: NativeRegion
    var emitted: seq<Emission>

    constructor(regionPtr: NativeRegion)
      ensures this.regionPtr == regionPtr && emitted == []
    {
      this.regionPtr := regionPtr;
      emitted := [];
    }

    method EmitEvent(name: string, payload: seq<HostValue>)
      modifies this
      ensures emitted == old(emitted) + [Emission(name, payload)]
    {
      emitted := emitted + [Emission(name, payload)];
    }
  }

  /** A `gemfire::Execution` as `withArgs`, `withFilter` and
      `withCollector` have configured it. */
  datatype Execution = Execution(arguments: Option<NativeValue>, filter: Option<seq<NativeValue>>, collected: bool)

  /** A `gemfire::EntryEvent`: the region the entry lives in, its key, and
      its value before and after the change. */
  datatype EntryEvent = EntryEvent(region: NativeRegion, key: NativeValue, oldValue: NativeValue, newValue: NativeValue)
}
