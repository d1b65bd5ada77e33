/** lib/binding.js: loading the addon and mixing EventEmitter into its
    `Region` constructor, so that region wrappers can emit events. */
module Binding {

  /** A function stored on a prototype: one of the addon's native methods,
      or a JavaScript function such as EventEmitter's, by name. */
  datatype Member = NativeMethod(name: string) | ScriptFunction(name: string)

  /** A prototype object, seen through its enumerable properties. */
  class Prototype {
    var properties: map<string, Member>

    constructor(properties: map<string, Member>)
      ensures this.properties == properties
    {
      this.properties := properties;
    }
  }

  /** A constructor function and its `prototype`. */
  class Constructor {
    const prototype: Prototype

    constructor(prototype: Prototype)
      ensures this.prototype == prototype
    {
      this.prototype := prototype;
    }
  }

  /** The addon's exports that the binding touches. */
  class Addon {
    const Region: Constructor

    constructor(Region: Constructor)
      ensures this.Region == Region
    {
      this.Region := Region;
    }
  }

  /** The target's properties after every property of the source has been
      copied over them. */
  function Inherited(target: map<string, Member>, source: map<string, Member>): (r: map<string, Member>)
    ensures r.Keys == target.Keys + source.Keys
    ensures forall key :: key in source ==> r[key] == source[key]
    ensures forall key :: key in target && key !in source ==> r[key] == target[key]
  {
    target + source
  }

  /** Mixing the same source in twice is mixing it in once. */
  lemma InheritedIdempotent(target: map<string, Member>, source: map<string, Member>)
    ensures Inherited(Inherited(target, source), source) == Inherited(target, source)
  {
  }

  /** `inherits`: each enumerable key of the source prototype, assigned
      into the target prototype in place.  The source prototype is read
      only, even when it is the target's. */
  method Inherits(target: Constructor, source: Constructor)
    modifies target.prototype
    ensures target.prototype.properties == Inherited(old(target.prototype.properties), old(source.prototype.properties))
    ensures source.prototype.properties == old(source.prototype.properties)
  {
    var keys := source.prototype.properties.Keys;
    ghost var copied: set<string> := {};
    while keys != {}
      invariant keys !! copied && keys + copied == old(source.prototype.properties).Keys
      invariant source.prototype.properties == old(source.prototype.properties)
      invariant target.prototype.properties ==
        Inherited(old(target.prototype.properties), map key | key in copied :: old(source.prototype.properties)[key])
      decreases keys
    {
      var key :| key in keys;
      target.prototype.properties := target.prototype.properties[key := source.prototype.properties[key]];
      keys := keys - {key};
      copied := copied + {key};
    }
    assert (map key | key in copied :: old(source.prototype.properties)[key]) == old(source.prototype.properties);
  }

  /** The methods `Region::Init` puts on the `Region` prototype. */
  const RegionMethodNames: set<string> :=
    {"clear", "put", "get", "getAll", "putAll", "remove", "query", "selectValue",
     "existsValue", "executeFunction", "inspect"}

  function RegionPrototype(): map<string, Member> {
    map name | name in RegionMethodNames :: NativeMethod(name)
  }

  /** The exported `binding` function after the addon is loaded: EventEmitter
      is mixed into `Region` before the addon is returned. */
  method Bind(gemfire: Addon, eventEmitter: Constructor) returns (r: Addon)
    modifies gemfire.Region.prototype
    ensures r == gemfire
    ensures gemfire.Region.prototype.properties ==
      Inherited(old(gemfire.Region.prototype.properties), old(eventEmitter.prototype.properties))
  {
    Inherits(gemfire.Region, eventEmitter);
    r := gemfire;
  }

  /** After the mixin, region wrappers have every EventEmitter method, and
      keep every native method whose name EventEmitter does not use. */
  lemma {:induction false} MixinKeepsRegionMethods(eventEmitter: map<string, Member>)
    ensures forall name :: name in eventEmitter ==> Inherited(RegionPrototype(), eventEmitter)[name] == eventEmitter[name]
    ensures forall name :: name in RegionMethodNames && name !in eventEmitter ==>
      Inherited(RegionPrototype(), eventEmitter)[name] == NativeMethod(name)
  {
  }
}
