/** src/event_stream.cpp: the buffer that carries entry events from the
    native client's listener thread to the JavaScript thread.  The mutex
    and the libuv wake-up are not part of the model; `added` and `drained`
    are the histories a proof needs. */
module EventStreams {
  import opened Codec
  import opened Runtime

  /** `EventStream::Event`: the name of the event and a copy of the entry
      event.  `getName` and `getRegion` read `eventName` and
      `entryEvent.region`. */
  datatype Event = Event(eventName: string, entryEvent: EntryEvent)

  /** `Event::v8Object`: a fresh object whose `key`, `oldValue` and
      `newValue` are the decoded key, old value and new value. */
  function V8Object(event: Event): (payload: HostValue)
    ensures payload.Object? && payload.kind == PlainObject
    ensures GetProperty(payload.properties, "key") == Decode(event.entryEvent.key).value
    ensures GetProperty(payload.properties, "oldValue") == Decode(event.entryEvent.oldValue).value
    ensures GetProperty(payload.properties, "newValue") == Decode(event.entryEvent.newValue).value
  {
    var e := event.entryEvent;
    var withKey := SetProperty([], "key", Decode(e.key).value);
    var withOld := SetProperty(withKey, "oldValue", Decode(e.oldValue).value);
    var payload := SetProperty(withOld, "newValue", Decode(e.newValue).value);
    GetSetProperty(withKey, "oldValue", Decode(e.oldValue).value, "key");
    GetSetProperty(withOld, "newValue", Decode(e.newValue).value, "key");
    GetSetProperty(withOld, "newValue", Decode(e.newValue).value, "oldValue");
    Object(PlainObject, payload)
  }

  /** The pending events of one stream.  Everything added is either
      drained already or pending, in the order it was added. */
  class EventStream<T> {
    var eventVector: seq<T>
    ghost var added: seq<T>
    ghost var drained: seq<T>

    ghost predicate Valid()
      reads this
    {
      drained + eventVector == added
    }

    constructor()
      ensures Valid() && eventVector == [] && added == [] && drained == []
    {
      eventVector := [];
      added := [];
      drained := [];
    }

    /** `add`: the event goes to the end of the pending events. */
    method Add(event: T)
      requires Valid()
      modifies this
      ensures Valid()
      ensures eventVector == old(eventVector) + [event]
      ensures added == old(added) + [event] && drained == old(drained)
    {
      eventVector := eventVector + [event];
      added := added + [event];
    }

    /** `nextEvents`: every pending event, in the order added; afterwards
      nothing is pending and everything ever added has been drained, once. */
    method NextEvents() returns (returnValue: seq<T>)
      requires Valid()
      modifies this
      ensures Valid()
      ensures returnValue == old(eventVector) && eventVector == []
      ensures drained == old(drained) + returnValue && added == old(added)
      ensures drained == added
    {
      returnValue := [];
      for i := 0 to |eventVector|
        invariant returnValue == eventVector[..i]
      {
        returnValue := returnValue + [eventVector[i]];
      }
      assert eventVector[..|eventVector|] == eventVector;
      eventVector := [];
      drained := drained + returnValue;
    }
  }
}
