/** src/region_event_registry.cpp: the registry of region wrappers that
    receive entry events.  The native listener calls `Emit` on its own
    thread; `PublishEvents` runs on the JavaScript thread and fans each
    event out as "create" to the wrappers of the event's region. */
module RegionEventRegistries {
  import opened Codec
  import opened Runtime
  import opened EventStreams

  /** The payload `publishEvents` builds for an event: its decoded key and
      its decoded new value. */
  function CreatePayload(event: EntryEvent): (payload: HostValue)
    ensures payload.Object? && payload.kind == PlainObject
    ensures GetProperty(payload.properties, "key") == Decode(event.key).value
    ensures GetProperty(payload.properties, "value") == Decode(event.newValue).value
  {
    var withKey := SetProperty([], "key", Decode(event.key).value);
    GetSetProperty(withKey, "value", Decode(event.newValue).value, "key");
    Object(PlainObject, SetProperty(withKey, "value", Decode(event.newValue).value))
  }

  function Create(event: EntryEvent): Emission {
    Emission("create", [CreatePayload(event)])
  }

  /** The emissions a wrapper of native region `r` receives while `events`
      are published in order, `emit` giving the emission for one event:
      one per event of region `r`. */
  function EmissionsFor(r: NativeRegion, events: seq<EntryEvent>, emit: EntryEvent -> Emission): seq<Emission> {
    if events == [] then []
    else
      var last := events[|events| - 1];
      EmissionsFor(r, events[..|events| - 1], emit) + (if last.region == r then [emit(last)] else [])
  }

  /** The emissions a wrapper of native region `r` receives while `events`
      are published: one "create" per event of region `r`. */
  function CreatesFor(r: NativeRegion, events: seq<EntryEvent>): seq<Emission> {
    EmissionsFor(r, events, Create)
  }

  lemma {:induction false} EmissionsForAppend(r: NativeRegion, a: seq<EntryEvent>, b: seq<EntryEvent>, emit: EntryEvent -> Emission)
    ensures EmissionsFor(r, a + b, emit) == EmissionsFor(r, a, emit) + EmissionsFor(r, b, emit)
    decreases |b|
  {
    if b != [] {
      var k := |b| - 1;
      assert (a + b)[..|a + b| - 1] == a + b[..k];
      EmissionsForAppend(r, a, b[..k], emit);
    } else {
      assert a + b == a;
    }
  }

  /** Publishing in two rounds emits what publishing in one round does. */
  lemma CreatesForAppend(r: NativeRegion, a: seq<EntryEvent>, b: seq<EntryEvent>)
    ensures CreatesFor(r, a + b) == CreatesFor(r, a) + CreatesFor(r, b)
  {
    EmissionsForAppend(r, a, b, Create);
  }

  lemma {:induction false} EmissionsForOtherRegion(r: NativeRegion, events: seq<EntryEvent>, emit: EntryEvent -> Emission)
    requires forall i :: 0 <= i < |events| ==> events[i].region != r
    ensures EmissionsFor(r, events, emit) == []
  {
    if events != [] {
      EmissionsForOtherRegion(r, events[..|events| - 1], emit);
    }
  }

  /** A wrapper of a region no event belongs to receives nothing. */
  lemma CreatesForOtherRegion(r: NativeRegion, events: seq<EntryEvent>)
    requires forall i :: 0 <= i < |events| ==> events[i].region != r
    ensures CreatesFor(r, events) == []
  {
    EmissionsForOtherRegion(r, events, Create);
  }

  lemma {:induction false} EmissionsForSameRegion(r: NativeRegion, events: seq<EntryEvent>, emit: EntryEvent -> Emission)
    requires forall i :: 0 <= i < |events| ==> events[i].region == r
    ensures |EmissionsFor(r, events, emit)| == |events|
    ensures forall i :: 0 <= i < |events| ==> EmissionsFor(r, events, emit)[i] == emit(events[i])
  {
    if events != [] {
      EmissionsForSameRegion(r, events[..|events| - 1], emit);
    }
  }

  /** A wrapper of the region every event belongs to receives one "create"
      per event, in drain order. */
  lemma CreatesForSameRegion(r: NativeRegion, events: seq<EntryEvent>)
    requires forall i :: 0 <= i < |events| ==> events[i].region == r
    ensures |CreatesFor(r, events)| == |events|
    ensures forall i :: 0 <= i < |events| ==> CreatesFor(r, events)[i] == Create(events[i])
  {
    EmissionsForSameRegion(r, events, Create);
  }

  class RegionEventRegistry {
    var regionSet: set<Region>
    /** The native regions the registry's cache listener is attached to. */
    var listened: set<NativeRegion>
    const eventStream: EventStream<EntryEvent>

    ghost predicate Valid()
      reads this, eventStream
    {
      eventStream.Valid()
    }

    constructor()
      ensures Valid() && fresh(eventStream)
      ensures regionSet == {} && listened == {} && eventStream.eventVector == []
    {
      regionSet := {};
      listened := {};
      eventStream := new EventStream<EntryEvent>();
    }

    /** `add`: attaches the listener to the wrapper's region and registers
        the wrapper; registering it again changes nothing. */
    method Add(region: Region)
      modifies this
      ensures regionSet == old(regionSet) + {region}
      ensures listened == old(listened) + {region.regionPtr}
    {
      listened := listened + {region.regionPtr};
      regionSet := regionSet + {region};
    }

    /** `remove`: unregisters this wrapper and no other. */
    method Remove(region: Region)
      modifies this
      ensures regionSet == old(regionSet) - {region} && listened == old(listened)
    {
      regionSet := regionSet - {region};
    }

    /** `emit`: the event is only queued, whatever its name; no wrapper
        hears of it before `PublishEvents`. */
    method Emit(eventName: string, event: EntryEvent)
      requires Valid()
      modifies eventStream
      ensures Valid()
      ensures eventStream.eventVector == old(eventStream.eventVector) + [event]
    {
      eventStream.Add(event);
    }

    /** `publishEvents`: drains the queue; each wrapper in the registry
        receives one "create" for each drained event of its own region, in
        drain order, and nothing else. */
    method PublishEvents()
      requires Valid()
      modifies eventStream, regionSet
      ensures Valid() && eventStream.eventVector == []
      ensures eventStream.drained == eventStream.added
      ensures forall h :: h in regionSet ==>
        h.emitted == old(h.emitted) + CreatesFor(h.regionPtr, old(eventStream.eventVector))
    {
      var eventVector := eventStream.NextEvents();
      var i := 0;
      while i < |eventVector|
        invariant 0 <= i <= |eventVector|
        invariant Valid() && eventStream.eventVector == [] && eventStream.drained == eventStream.added
        invariant forall h :: h in regionSet ==> h.emitted == old(h.emitted) + CreatesFor(h.regionPtr, eventVector[..i])
      {
        var eventPtr := eventVector[i];
        PublishEvent(eventPtr);
        assert eventVector[..i + 1][..i] == eventVector[..i];
        i := i + 1;
      }
      assert eventVector[..i] == eventVector;
    }

    /** One round of the inner loop of `publishEvents`: "create" with the
        event's payload on each registered wrapper of the event's region. */
    method PublishEvent(eventPtr: EntryEvent)
      modifies regionSet
      ensures forall h :: h in regionSet ==>
        h.emitted == old(h.emitted) + (if h.regionPtr == eventPtr.region then [Create(eventPtr)] else [])
    {
      var eventPayload := CreatePayload(eventPtr);
      var pending := regionSet;
      while pending != {}
        invariant pending <= regionSet
        invariant forall h :: h in regionSet && h !in pending ==>
          h.emitted == old(h.emitted) + (if h.regionPtr == eventPtr.region then [Create(eventPtr)] else [])
        invariant forall h :: h in pending ==> h.emitted == old(h.emitted)
        decreases pending
      {
        var region :| region in pending;
        if region.regionPtr == eventPtr.region {
          region.EmitEvent("create", [eventPayload]);
        }
        pending := pending - {region};
      }
    }
  }
}
