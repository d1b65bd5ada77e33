/** The value codec of src/conversions.cpp: host (V8) values to native
    cache values (`gemfireValueFromV8`) and back (`v8ValueFromGemfire`).

    `Encode` and `Decode` are the specification: recursive functions with
    the source's dispatch.  `GemfireValueFromV8`, `ToPdxInstance`,
    `V8ValueFromGemfire`, `FromPdxInstance`, `V8ObjectFromGemfireStruct`
    and the string copies are the source's procedures, with their loops,
    proved equal to the specification. */
module Codec {
  import opened Common

  /** A UTF-16 code unit, the unit in which V8 stores strings. */
  type CodeUnit = u: int | 0 <= u < 0x1_0000
  /** A `wchar_t`: a signed 32-bit integer on the native client's Linux build. */
  type WChar = c: int | -0x8000_0000 <= c < 0x8000_0000
  /** A byte of a `CacheableASCIIString`. */
  type AsciiChar = c: int | 0 <= c < 0x80
  /** The bit pattern of a double: numbers cross the codec as opaque tokens. */
  type Double = bv64

  // Type ids of the native client's GemfireTypeIds that the decoder tests.
  const CacheableUndefinedId: int := 31
  const StructId: int := 32
  const CacheableStringId: int := 42
  const CacheableObjectArrayId: int := 52
  const CacheableBooleanId: int := 53
  const CacheableDoubleId: int := 60
  const CacheableDateId: int := 61
  const CacheableVectorId: int := 71
  const CacheableASCIIStringId: int := 87
  const CacheableStringHugeId: int := 89

  /** The type ids that `v8ValueFromGemfire` has a branch of its own for. */
  predicate HasDecodeBranch(t: int) {
    t == CacheableASCIIStringId || t == CacheableStringId || t == CacheableBooleanId ||
    t == CacheableDoubleId || t == CacheableDateId || t == CacheableUndefinedId ||
    t == StructId || t == CacheableObjectArrayId || t == CacheableVectorId
  }

  /** The type id of a native kind the decoder has no branch for.  Ids above
      CacheableStringHuge are taken to be PDX instances, as the source
      assumes, so an unhandled kind has an id at most CacheableStringHuge
      (CacheableInt32 = 57, for one). */
  type UnhandledTypeId = t: int | t <= CacheableStringHugeId && !HasDecodeBranch(t) witness 57

  // ---------------------------------------------------------------------
  // Host values, as the V8 type predicates classify them.

  datatype ObjectKind = PlainObject | FunctionObject | ErrorObject

  /** A V8 value.  Functions and native errors are objects with a kind;
      their own properties form a finite, acyclic list. */
  datatype HostValue =
    | Undefined
    | Null
    | Boolean(b: bool)
    | Number(d: Double)
    | String(units: seq<CodeUnit>)
    | Date(time: int)
    | Array(elements: seq<HostValue>)
    | Object(kind: ObjectKind, properties: seq<Property>)

  /** An own property, in the order `GetOwnPropertyNames` lists it. */
  datatype Property = Property(name: string, value: HostValue)

  predicate IsUndefined(h: HostValue) { h.Undefined? }
  predicate IsNull(h: HostValue) { h.Null? }
  predicate IsBoolean(h: HostValue) { h.Boolean? }
  predicate IsNumber(h: HostValue) { h.Number? }
  predicate IsString(h: HostValue) { h.String? }
  predicate IsDate(h: HostValue) { h.Date? }
  predicate IsArray(h: HostValue) { h.Array? }
  /** V8's IsObject holds for dates, arrays, functions and errors too. */
  predicate IsObject(h: HostValue) { h.Date? || h.Array? || h.Object? }
  predicate IsFunction(h: HostValue) { h.Object? && h.kind == FunctionObject }
  predicate IsNativeError(h: HostValue) { h.Object? && h.kind == ErrorObject }

  /** `args[i]` of a call: undefined beyond the arguments passed. */
  function Argument(args: seq<HostValue>, i: nat): (h: HostValue)
    ensures i < |args| ==> h == args[i]
    ensures i >= |args| ==> h.Undefined?
  {
    if i < |args| then args[i] else Undefined
  }

  /** `object->Get(name)` on a value V8 calls an object: an own property of
      a plain object, function or error; dates and arrays have no named own
      properties here. */
  function Get(h: HostValue, name: string): HostValue {
    if h.Object? then GetProperty(h.properties, name) else Undefined
  }

  function Names(ps: seq<Property>): (r: seq<string>)
    ensures |r| == |ps| && forall i :: 0 <= i < |ps| ==> r[i] == ps[i].name
  {
    seq(|ps|, i requires 0 <= i < |ps| => ps[i].name)
  }

  predicate Distinct<T(==)>(s: seq<T>) {
    forall i, j :: 0 <= i < j < |s| ==> s[i] != s[j]
  }

  /** Every object inside `h` has property names that stay pairwise
      distinct when cut at their first NUL, as the encoder copies them,
      and every date a time value within the JavaScript range, as in every
      JavaScript value. */
  predicate WellFormed(h: HostValue)
    decreases h
  {
    match h
    case Date(t) => -MaxTimeValue <= t <= MaxTimeValue
    case Array(es) => forall i :: 0 <= i < |es| ==> WellFormed(es[i])
    case Object(_, ps) => Distinct(KeyNames(ps)) && forall i :: 0 <= i < |ps| ==> WellFormed(ps[i].value)
    case _ => true
  }

  /** The value of the first property named `name`, or undefined. */
  function GetProperty(ps: seq<Property>, name: string): HostValue {
    if ps == [] then Undefined
    else if ps[0].name == name then ps[0].value
    else GetProperty(ps[1..], name)
  }

  /** `object->Set(name, v)`: overwrite the property in place, or append it. */
  function SetProperty(ps: seq<Property>, name: string, v: HostValue): (r: seq<Property>)
    ensures GetProperty(r, name) == v
  {
    if ps == [] then [Property(name, v)]
    else if ps[0].name == name then [Property(name, v)] + ps[1..]
    else [ps[0]] + SetProperty(ps[1..], name, v)
  }

  /** Setting one property leaves every other property as it was. */
  lemma {:induction false} GetSetProperty(ps: seq<Property>, name: string, v: HostValue, other: string)
    ensures GetProperty(SetProperty(ps, name, v), other) == if other == name then v else GetProperty(ps, other)
  {
    if ps != [] && ps[0].name != name {
      GetSetProperty(ps[1..], name, v, other);
    }
  }

  /** The properties of a fresh object after `Set(names[i], values[i])`
      for i = 0, 1, ... in order. */
  function BuildObject(names: seq<string>, values: seq<HostValue>): seq<Property>
    requires |names| == |values|
  {
    if names == [] then []
    else SetProperty(BuildObject(names[..|names| - 1], values[..|values| - 1]),
                     names[|names| - 1], values[|values| - 1])
  }

  /** A JavaScript `Error` whose message is `message`. */
  function ErrorValue(message: string): HostValue {
    Object(ErrorObject, [Property("message", String(Utf16(message)))])
  }

  /** The UTF-16 encoding of a string of Unicode scalar values, as V8 builds
      a string from UTF-8 text. */
  function Utf16(s: string): seq<CodeUnit> {
    if s == [] then []
    else
      var c := s[0] as int;
      (if c < 0x1_0000 then [c as CodeUnit]
       else [(0xD800 + (c - 0x1_0000) / 0x400) as CodeUnit, (0xDC00 + (c - 0x1_0000) % 0x400) as CodeUnit])
      + Utf16(s[1..])
  }

  // ---------------------------------------------------------------------
  // Native values.

  datatype FieldKind = ObjectField | ObjectArrayField
  datatype PdxField = PdxField(name: string, kind: FieldKind, value: NativeValue)
  datatype StructField = StructField(name: string, value: NativeValue)

  /** A `CacheablePtr`: the null pointer or a native cacheable value.  A
      `CacheableDate` holds milliseconds since the epoch; `Unhandled` stands
      for any kind the decoder has no branch for.  The random PDX class name
      that encoding invents is not recorded. */
  datatype NativeValue =
    | NullPtr
    | CacheableString(wide: seq<WChar>)
    | CacheableASCIIString(chars: seq<AsciiChar>)
    | CacheableBoolean(b: bool)
    | CacheableDouble(d: Double)
    | CacheableDate(millis: int)
    | CacheableUndefined
    | Struct(fields: seq<StructField>)
    | CacheableObjectArray(elements: seq<NativeValue>)
    | CacheableVector(items: seq<NativeValue>)
    | PdxInstance(pdxFields: seq<PdxField>)
    | Unhandled(typeId: UnhandledTypeId)

  /** True when an `Unhandled` kind occurs anywhere inside `n`. */
  predicate ContainsUnhandled(n: NativeValue)
    decreases n
  {
    match n
    case Unhandled(_) => true
    case Struct(fs) => exists i :: 0 <= i < |fs| && ContainsUnhandled(fs[i].value)
    case CacheableObjectArray(es) => exists i :: 0 <= i < |es| && ContainsUnhandled(es[i])
    case CacheableVector(es) => exists i :: 0 <= i < |es| && ContainsUnhandled(es[i])
    case PdxInstance(fs) => exists i :: 0 <= i < |fs| && ContainsUnhandled(fs[i].value)
    case _ => false
  }

  /** Every PDX instance inside `n` has pairwise distinct field names, as
      a PDX type's fields have. */
  predicate NativeWellFormed(n: NativeValue)
    decreases n
  {
    match n
    case Struct(fs) => forall i :: 0 <= i < |fs| ==> NativeWellFormed(fs[i].value)
    case CacheableObjectArray(es) => forall i :: 0 <= i < |es| ==> NativeWellFormed(es[i])
    case CacheableVector(es) => forall i :: 0 <= i < |es| ==> NativeWellFormed(es[i])
    case PdxInstance(fs) =>
      (forall i, j :: 0 <= i < j < |fs| ==> fs[i].name != fs[j].name) &&
      forall i :: 0 <= i < |fs| ==> NativeWellFormed(fs[i].value)
    case _ => true
  }

  // ---------------------------------------------------------------------
  // Strings.

  function Widen(u: seq<CodeUnit>): (w: seq<WChar>)
    ensures |w| == |u| && forall i :: 0 <= i < |u| ==> w[i] == u[i]
  {
    seq(|u|, i requires 0 <= i < |u| => u[i] as WChar)
  }

  /** `uint16_t` assignment from a `wchar_t`: the low 16 bits. */
  function Uint16(c: WChar): CodeUnit {
    c % 0x1_0000
  }

  function Narrow(w: seq<WChar>): (u: seq<CodeUnit>)
    ensures |u| == |w| && forall i :: 0 <= i < |w| ==> u[i] == Uint16(w[i])
  {
    seq(|w|, i requires 0 <= i < |w| => Uint16(w[i]))
  }

  function AsciiUnits(cs: seq<AsciiChar>): (u: seq<CodeUnit>)
    ensures |u| == |cs| && forall i :: 0 <= i < |cs| ==> u[i] == cs[i]
  {
    seq(|cs|, i requires 0 <= i < |cs| => cs[i] as CodeUnit)
  }

  /** What `wstringFromV8String` returns: the code units up to the first NUL. */
  function WideFromUnits(u: seq<CodeUnit>): seq<WChar> {
    UpToNul(Widen(u), 0)
  }

  /** What `v8StringFromWstring` returns: the low 16 bits of each character,
      read up to the first zero unit. */
  function UnitsFromWide(w: seq<WChar>): seq<CodeUnit> {
    UpToNul(Narrow(w), 0)
  }

  /** Reads a zero-terminated buffer as `std::wstring(buffer)` and
      `NanNew(uint16_t *)` do: scan to the terminator. */
  method ReadTerminated(buffer: array<int>) returns (s: seq<int>)
    requires 0 in buffer[..]
    ensures s == UpToNul(buffer[..], 0)
  {
    var n := 0;
    while buffer[n] != 0
      invariant 0 <= n < buffer.Length
      invariant 0 !in buffer[..n]
      invariant 0 in buffer[n..]
      decreases buffer.Length - n
    {
      assert buffer[n..] == [buffer[n]] + buffer[n + 1..];
      n := n + 1;
    }
    UpToNulAt(buffer[..], 0, n);
    s := buffer[..n];
  }

  method WstringFromV8String(v8String: seq<CodeUnit>) returns (w: seq<WChar>)
    ensures w == WideFromUnits(v8String)
  {
    var length := |v8String|;
    var buffer := new int[length + 1];
    for i := 0 to length
      invariant forall k :: 0 <= k < i ==> buffer[k] == v8String[k]
    {
      buffer[i] := v8String[i];
    }
    buffer[length] := 0;
    assert buffer[..] == Widen(v8String) + [0];
    UpToNulAppend(Widen(v8String), 0);
    var read := ReadTerminated(buffer);
    w := read;
  }

  method V8StringFromWstring(wideString: seq<WChar>) returns (u: seq<CodeUnit>)
    ensures u == UnitsFromWide(wideString)
  {
    var length := |wideString|;
    var buffer := new int[length + 1];
    for i := 0 to length
      invariant forall k :: 0 <= k < i ==> buffer[k] == Uint16(wideString[k])
    {
      buffer[i] := Uint16(wideString[i]);
    }
    buffer[length] := 0;
    assert buffer[..] == Narrow(wideString) + [0];
    UpToNulAppend(Narrow(wideString), 0);
    var read := ReadTerminated(buffer);
    u := read;
  }

  /** A terminator appended to a buffer does not change what is read. */
  lemma {:induction false} UpToNulAppend<T>(s: seq<T>, nul: T)
    ensures UpToNul(s + [nul], nul) == UpToNul(s, nul)
  {
    if s != [] && s[0] != nul {
      assert (s + [nul])[1..] == s[1..] + [nul];
      UpToNulAppend(s[1..], nul);
    }
  }

  /** A string sent to the cache comes back as its prefix before the first
      NUL code unit; a NUL-free string comes back unchanged. */
  lemma {:induction false} StringRoundTrip(u: seq<CodeUnit>)
    ensures UnitsFromWide(WideFromUnits(u)) == UpToNul(u, 0)
    ensures 0 !in u ==> UnitsFromWide(WideFromUnits(u)) == u
  {
    var k := |UpToNul(Widen(u), 0)|;
    var w := WideFromUnits(u);
    assert Narrow(w) == u[..k];
    UpToNulOfFree(u[..k], 0);
    UpToNulAt(u, 0, k);
    if 0 !in u {
      UpToNulOfFree(u, 0);
    }
  }

  // ---------------------------------------------------------------------
  // Dates.

  const TwoTo63: int := 0x8000_0000_0000_0000
  const TwoTo64: int := 0x1_0000_0000_0000_0000

  /** The largest magnitude of a JavaScript time value: 8.64e15
      milliseconds, 100 million days either side of the epoch (ECMA-262,
      "Time Values and Time Range"). */
  const MaxTimeValue: int := 8_640_000_000_000_000

  /** `uint64 ms = date->NumberValue()`: a time value outside the range of
      uint64 is taken modulo 2^64, so a negative one wraps around. */
  function ToUint64(t: int): nat {
    t % TwoTo64
  }

  /** `milliseconds()` returns an `int64`: the stored count read as a
      two's-complement 64-bit integer. */
  function ToInt64(m: int): (r: int)
    ensures -TwoTo63 <= r < TwoTo63 && (r - m) % TwoTo64 == 0
  {
    var w := m % TwoTo64;
    if w < TwoTo63 then w else w - TwoTo64
  }

  datatype Timeval = Timeval(seconds: nat, microseconds: nat)

  /** `tv_sec = ms / 1000; tv_usec = (ms % 1000) * 1000`. */
  function TimevalFromMillis(ms: nat): Timeval {
    Timeval(ms / 1000, (ms % 1000) * 1000)
  }

  /** The milliseconds a `CacheableDate` created from a timeval holds. */
  function MillisFromTimeval(tv: Timeval): int {
    tv.seconds * 1000 + tv.microseconds / 1000
  }

  /** The timeval is normalised, and no millisecond is lost or gained. */
  lemma DateEncodingExact(ms: nat)
    ensures TimevalFromMillis(ms).microseconds < 1_000_000
    ensures TimevalFromMillis(ms).microseconds % 1000 == 0
    ensures MillisFromTimeval(TimevalFromMillis(ms)) == ms
  {
    var tv := TimevalFromMillis(ms);
    assert tv.microseconds / 1000 == ms % 1000;
  }

  /** A JavaScript time value, negative ones included, survives the uint64
      encoding and the int64 read-back. */
  lemma DateRoundTrip(t: int)
    requires -MaxTimeValue <= t <= MaxTimeValue
    ensures ToInt64(MillisFromTimeval(TimevalFromMillis(ToUint64(t)))) == t
  {
    DateEncodingExact(ToUint64(t));
    if t < 0 {
      assert ToUint64(t) == t + TwoTo64;
    }
  }

  // ---------------------------------------------------------------------
  // Encoding: gemfireValueFromV8 and toPdxInstance.

  /** The native value that `gemfireValueFromV8` builds for `h`, testing
      kinds in the source's order: string, boolean, number, date, array,
      object, null; anything else (undefined) gives the null pointer. */
  function Encode(h: HostValue): (n: NativeValue)
    decreases h, 1
  {
    if IsString(h) then CacheableString(WideFromUnits(h.units))
    else if IsBoolean(h) then CacheableBoolean(h.b)
    else if IsNumber(h) then CacheableDouble(h.d)
    else if IsDate(h) then CacheableDate(MillisFromTimeval(TimevalFromMillis(ToUint64(h.time))))
    else if IsArray(h) then
      CacheableObjectArray(seq(|h.elements|, i requires 0 <= i < |h.elements| => Encode(h.elements[i])))
    else if IsObject(h) then EncodeObject(h)
    else if IsNull(h) then CacheableUndefined
    else NullPtr
  }

  /** The field name `toPdxInstance` copies from a property name with
      `snprintf("%s")`: the copy stops at the first NUL. */
  function KeyCopy(name: string): string {
    UpToNul(name, '\0')
  }

  /** The copy is a NUL-free prefix of the name, and the whole name exactly
      when the name holds no NUL. */
  lemma KeyCopyCut(name: string)
    ensures '\0' !in KeyCopy(name) && |KeyCopy(name)| <= |name| && KeyCopy(name) == name[..|KeyCopy(name)|]
    ensures KeyCopy(name) == name <==> '\0' !in name
  {
    if '\0' !in name {
      UpToNulOfFree(name, '\0');
    }
  }

  function KeyNames(ps: seq<Property>): (r: seq<string>)
    ensures |r| == |ps| && forall i :: 0 <= i < |ps| ==> r[i] == KeyCopy(ps[i].name)
  {
    seq(|ps|, i requires 0 <= i < |ps| => KeyCopy(ps[i].name))
  }

  /** Two names that differ only after a NUL are copied to the same field
      name, so an object holding both is outside the round trip. */
  lemma KeyCopyCollides()
    ensures KeyCopy("a\0b") == KeyCopy("a\0c") == "a"
    ensures !WellFormed(Object(PlainObject, [Property("a\0b", Null), Property("a\0c", Null)]))
  {
    UpToNulAt("a\0b", '\0', 1);
    UpToNulAt("a\0c", '\0', 1);
    var ps := [Property("a\0b", Null), Property("a\0c", Null)];
    assert KeyNames(ps)[0] == KeyNames(ps)[1];
  }

  /** `toPdxInstance`: one field per own property, named by the copy of
      the property's name, and written as an object array exactly when the
      property's value is an array. */
  function EncodeObject(h: HostValue): (n: NativeValue)
    requires h.Object?
    decreases h, 0
  {
    PdxInstance(seq(|h.properties|, i requires 0 <= i < |h.properties| =>
      PdxField(KeyCopy(h.properties[i].name),
               if IsArray(h.properties[i].value) then ObjectArrayField else ObjectField,
               Encode(h.properties[i].value))))
  }

  /** The encoder never produces a kind the decoder cannot read, and it
      maps undefined, and only undefined, to the null pointer and null, and
      only null, to CacheableUndefined.  The PDX factory is taken never to
      raise; if it did, `toPdxInstance` would also give the null pointer. */
  lemma {:induction false} EncodeShape(h: HostValue)
    ensures !ContainsUnhandled(Encode(h))
    ensures Encode(h).NullPtr? <==> h.Undefined?
    ensures Encode(h).CacheableUndefined? <==> h.Null?
    decreases h
  {
    match h
    case Array(es) =>
      forall i | 0 <= i < |es| ensures !ContainsUnhandled(Encode(es[i])) {
        EncodeShape(es[i]);
      }
    case Object(_, ps) =>
      forall i | 0 <= i < |ps| ensures !ContainsUnhandled(Encode(ps[i].value)) {
        EncodeShape(ps[i].value);
      }
    case _ =>
  }

  /** An array encodes to an object array of the same length, element i
      encoded from element i. */
  lemma EncodeArrayElements(h: HostValue)
    requires IsArray(h)
    ensures Encode(h).CacheableObjectArray? && |Encode(h).elements| == |h.elements|
    ensures forall i :: 0 <= i < |h.elements| ==> Encode(h).elements[i] == Encode(h.elements[i])
  {
  }

  method GemfireValueFromV8(v8Value: HostValue) returns (n: NativeValue)
    ensures n == Encode(v8Value)
    decreases v8Value, 1
  {
    if IsString(v8Value) {
      var wide := WstringFromV8String(v8Value.units);
      n := CacheableString(wide);
    } else if IsBoolean(v8Value) {
      n := CacheableBoolean(v8Value.b);
    } else if IsNumber(v8Value) {
      n := CacheableDouble(v8Value.d);
    } else if IsDate(v8Value) {
      var millisecondsSinceEpoch := ToUint64(v8Value.time);
      var timeSinceEpoch := Timeval(millisecondsSinceEpoch / 1000, (millisecondsSinceEpoch % 1000) * 1000);
      n := CacheableDate(MillisFromTimeval(timeSinceEpoch));
    } else if IsArray(v8Value) {
      var v8Array := v8Value.elements;
      var elements: seq<NativeValue> := [];
      for i := 0 to |v8Array|
        invariant |elements| == i
        invariant forall k :: 0 <= k < i ==> elements[k] == Encode(v8Array[k])
      {
        var element := GemfireValueFromV8(v8Array[i]);
        elements := elements + [element];
      }
      n := CacheableObjectArray(elements);
    } else if IsObject(v8Value) {
      n := ToPdxInstance(v8Value);
    } else if IsNull(v8Value) {
      n := CacheableUndefined;
    } else {
      n := NullPtr;
    }
  }

  method ToPdxInstance(v8Object: HostValue) returns (n: NativeValue)
    requires v8Object.Object?
    ensures n == EncodeObject(v8Object)
    decreases v8Object, 0
  {
    var v8Keys := v8Object.properties;
    var fields: seq<PdxField> := [];
    for i := 0 to |v8Keys|
      invariant |fields| == i
      invariant forall k :: 0 <= k < i ==> fields[k] == EncodeObject(v8Object).pdxFields[k]
    {
      var v8Value := v8Keys[i].value;
      var key := KeyCopy(v8Keys[i].name);
      var cacheable := GemfireValueFromV8(v8Value);
      if IsArray(v8Value) {
        fields := fields + [PdxField(key, ObjectArrayField, cacheable)];
      } else {
        fields := fields + [PdxField(key, ObjectField, cacheable)];
      }
    }
    n := PdxInstance(fields);
  }

  // ---------------------------------------------------------------------
  // Decoding: v8ValueFromGemfire, fromPdxInstance, v8ObjectFromGemfireStruct.

  /** A decoded value with the type ids for which the decoder raised
      "Unknown typeId: <id>", in the order it raised them.  Like the
      source, which throws into V8 and goes on with `undefined`, the model
      puts `undefined` where the unknown kind was. */
  datatype Decoded = Decoded(value: HostValue, thrown: seq<int>)

  function UnknownTypeIdMessage(typeId: int): string {
    "Unknown typeId: " + IntDecimal(typeId)
  }

  /** The message names the type id: its digits read back to the id,
      after a minus sign when the id is negative. */
  lemma UnknownTypeIdMessageNamesId(typeId: int)
    ensures |UnknownTypeIdMessage(typeId)| > 16
    ensures UnknownTypeIdMessage(typeId)[..16] == "Unknown typeId: "
    ensures typeId >= 0 ==> DigitsValue(UnknownTypeIdMessage(typeId)[16..]) == typeId
    ensures typeId < 0 ==>
      UnknownTypeIdMessage(typeId)[16] == '-' && DigitsValue(UnknownTypeIdMessage(typeId)[17..]) == -typeId
  {
    var m := UnknownTypeIdMessage(typeId);
    if typeId >= 0 {
      assert m[16..] == NatDecimal(typeId);
      NatDecimalValue(typeId);
    } else {
      assert m[17..] == NatDecimal(-typeId);
      NatDecimalValue(-typeId);
    }
  }

  function Values(ds: seq<Decoded>): (vs: seq<HostValue>)
    ensures |vs| == |ds| && forall i :: 0 <= i < |ds| ==> vs[i] == ds[i].value
  {
    seq(|ds|, i requires 0 <= i < |ds| => ds[i].value)
  }

  /** The ids raised while decoding `ds` in order. */
  function Thrown(ds: seq<Decoded>): seq<int> {
    if ds == [] then [] else Thrown(ds[..|ds| - 1]) + ds[|ds| - 1].thrown
  }

  /** One more decoding appends the ids it raised. */
  lemma ThrownSnoc(ds: seq<Decoded>, d: Decoded)
    ensures Thrown(ds + [d]) == Thrown(ds) + d.thrown
  {
    assert (ds + [d])[..|ds|] == ds;
  }

  lemma ThrownStep(ds: seq<Decoded>, i: nat)
    requires i < |ds|
    ensures Thrown(ds[..i + 1]) == Thrown(ds[..i]) + ds[i].thrown
  {
    assert ds[..i + 1][..i] == ds[..i];
  }

  lemma {:induction false} ThrownEmpty(ds: seq<Decoded>)
    ensures Thrown(ds) == [] <==> forall i :: 0 <= i < |ds| ==> ds[i].thrown == []
  {
    if ds != [] {
      var k := |ds| - 1;
      ThrownEmpty(ds[..k]);
      assert forall i :: 0 <= i < k ==> ds[..k][i] == ds[i];
      assert Thrown(ds) == [] <==> Thrown(ds[..k]) == [] && ds[k].thrown == [];
    }
  }

  /** The index of the first field named `name`, or |fs| if there is none:
      the field `getField(name)` reads. */
  function FieldIndex(fs: seq<PdxField>, name: string): (k: nat)
    ensures k <= |fs|
    ensures k < |fs| ==> fs[k].name == name
    ensures forall j :: 0 <= j < k ==> fs[j].name != name
  {
    if fs == [] then 0 else if fs[0].name == name then 0 else 1 + FieldIndex(fs[1..], name)
  }

  /** The field that `getField` reads for the name of field i. */
  function Lookup(fs: seq<PdxField>, i: nat): (k: nat)
    requires i < |fs|
    ensures k <= i && fs[k].name == fs[i].name
  {
    FieldIndex(fs, fs[i].name)
  }

  function Items(n: NativeValue): seq<NativeValue>
    requires n.CacheableObjectArray? || n.CacheableVector?
  {
    if n.CacheableObjectArray? then n.elements else n.items
  }

  /** The host value `v8ValueFromGemfire` returns for `n`. */
  function Decode(n: NativeValue): (d: Decoded)
    decreases n, 2
  {
    match n
    case NullPtr => Decoded(Undefined, [])
    case CacheableASCIIString(cs) => Decoded(String(UpToNul(AsciiUnits(cs), 0)), [])
    case CacheableString(w) => Decoded(String(UnitsFromWide(UpToNul(w, 0))), [])
    case CacheableBoolean(b) => Decoded(Boolean(b), [])
    case CacheableDouble(d) => Decoded(Number(d), [])
    case CacheableDate(ms) => Decoded(Date(ToInt64(ms)), [])
    case CacheableUndefined => Decoded(Null, [])
    case Struct(_) => DecodeStruct(n)
    case CacheableObjectArray(_) => DecodeArray(n)
    case CacheableVector(_) => DecodeArray(n)
    case PdxInstance(_) => DecodePdx(n)
    case Unhandled(t) => Decoded(Undefined, [t])
  }

  /** `null` comes back exactly from CacheableUndefined, `undefined`
      exactly from the null pointer or an unknown kind, and a decoded value
      is never a function or an `Error`. */
  lemma DecodeShape(n: NativeValue)
    ensures Decode(n).value.Null? <==> n.CacheableUndefined?
    ensures Decode(n).value.Undefined? <==> (n.NullPtr? || n.Unhandled?)
    ensures !IsFunction(Decode(n).value) && !IsNativeError(Decode(n).value)
  {
  }

  /** Object arrays and vectors: an array of the items' decodings. */
  function DecodeArray(n: NativeValue): (d: Decoded)
    requires n.CacheableObjectArray? || n.CacheableVector?
    ensures d.value.Array?
    decreases n, 1
  {
    var ds := ItemDecodings(n);
    Decoded(Array(Values(ds)), Thrown(ds))
  }

  function ItemDecodings(n: NativeValue): (ds: seq<Decoded>)
    requires n.CacheableObjectArray? || n.CacheableVector?
    ensures |ds| == |Items(n)| && forall i :: 0 <= i < |ds| ==> ds[i] == Decode(Items(n)[i])
    decreases n, 0
  {
    var es := Items(n);
    seq(|es|, i requires 0 <= i < |es| => Decode(es[i]))
  }

  /** Object arrays and vectors decode to arrays of the same length,
      element i decoded from item i. */
  lemma DecodeArrayElements(n: NativeValue)
    requires n.CacheableObjectArray? || n.CacheableVector?
    ensures Decode(n).value.Array? && |Decode(n).value.elements| == |Items(n)|
    ensures forall i :: 0 <= i < |Items(n)| ==> Decode(n).value.elements[i] == Decode(Items(n)[i]).value
  {
    DecodeOfArray(n);
  }

  /** The state of a decoding loop after `|got|` items: `got` holds their
      decodings, `vs` their values at the same indices, and `thrown` the
      ids they raised. */
  ghost predicate DecodedPrefix(es: seq<NativeValue>, got: seq<Decoded>, vs: seq<HostValue>, thrown: seq<int>) {
    |got| <= |es| && |got| <= |vs| && thrown == Thrown(got) &&
    forall k :: 0 <= k < |got| ==> got[k] == Decode(es[k]) && vs[k] == got[k].value
  }

  /** One more item decoded and set at its index. */
  lemma DecodedPrefixSet(es: seq<NativeValue>, got: seq<Decoded>, vs: seq<HostValue>, thrown: seq<int>, element: Decoded)
    requires DecodedPrefix(es, got, vs, thrown) && |got| < |es| && |got| < |vs| && element == Decode(es[|got|])
    ensures DecodedPrefix(es, got + [element], vs[|got| := element.value], thrown + element.thrown)
  {
    ThrownSnoc(got, element);
  }

  /** One more item decoded and appended. */
  lemma DecodedPrefixAppend(es: seq<NativeValue>, got: seq<Decoded>, vs: seq<HostValue>, thrown: seq<int>, element: Decoded)
    requires DecodedPrefix(es, got, vs, thrown) && |got| < |es| && |vs| == |got| && element == Decode(es[|got|])
    ensures DecodedPrefix(es, got + [element], vs + [element.value], thrown + element.thrown)
  {
    ThrownSnoc(got, element);
  }

  /** Items decoded one by one and collected in order make up the array
      the decoder returns. */
  lemma DecodedItems(n: NativeValue, got: seq<Decoded>, vs: seq<HostValue>, thrown: seq<int>)
    requires n.CacheableObjectArray? || n.CacheableVector?
    requires DecodedPrefix(Items(n), got, vs, thrown) && |got| == |Items(n)| == |vs|
    ensures Decode(n) == Decoded(Array(vs), thrown)
  {
    assert got == ItemDecodings(n);
    assert vs == Values(got);
    DecodeOfArray(n);
  }

  function StructNames(fs: seq<StructField>): (names: seq<string>)
    ensures |names| == |fs| && forall i :: 0 <= i < |fs| ==> names[i] == fs[i].name
  {
    seq(|fs|, i requires 0 <= i < |fs| => fs[i].name)
  }

  function PdxNames(fs: seq<PdxField>): (names: seq<string>)
    ensures |names| == |fs| && forall i :: 0 <= i < |fs| ==> names[i] == fs[i].name
  {
    seq(|fs|, i requires 0 <= i < |fs| => fs[i].name)
  }

  /** `v8ObjectFromGemfireStruct`: property `getFieldName(i)` set to the
      decoding of field i, for each i in order. */
  function DecodeStruct(n: NativeValue): (d: Decoded)
    requires n.Struct?
    ensures d.value.Object? && d.value.kind == PlainObject
    decreases n, 1
  {
    var ds := FieldDecodings(n);
    Decoded(Object(PlainObject, BuildObject(StructNames(n.fields), Values(ds))), Thrown(ds))
  }

  function FieldDecodings(n: NativeValue): (ds: seq<Decoded>)
    requires n.Struct?
    ensures |ds| == |n.fields| && forall i :: 0 <= i < |ds| ==> ds[i] == Decode(n.fields[i].value)
    decreases n, 0
  {
    var fs := n.fields;
    seq(|fs|, i requires 0 <= i < |fs| => Decode(fs[i].value))
  }

  /** `fromPdxInstance`: an instance without field names gives `{}`;
      otherwise the property for each field name is set to the decoding of
      the field `getField` finds under that name. */
  function DecodePdx(n: NativeValue): (d: Decoded)
    requires n.PdxInstance?
    ensures d.value.Object? && d.value.kind == PlainObject
    ensures n.pdxFields == [] ==> d == Decoded(Object(PlainObject, []), [])
    decreases n, 1
  {
    if n.pdxFields == [] then Decoded(Object(PlainObject, []), [])
    else
      var ds := PdxDecodings(n);
      Decoded(Object(PlainObject, BuildObject(PdxNames(n.pdxFields), Values(ds))), Thrown(ds))
  }

  function PdxDecodings(n: NativeValue): (ds: seq<Decoded>)
    requires n.PdxInstance?
    ensures |ds| == |n.pdxFields|
    ensures forall i :: 0 <= i < |ds| ==> ds[i] == Decode(n.pdxFields[Lookup(n.pdxFields, i)].value)
    decreases n, 0
  {
    var fs := n.pdxFields;
    seq(|fs|, i requires 0 <= i < |fs| => Decode(fs[Lookup(fs, i)].value))
  }

  /** With distinct field names, a struct decodes to an object with one
      property per field, in field order, named by the field and holding
      its decoding. */
  lemma DecodeStructFields(n: NativeValue)
    requires n.Struct? && Distinct(StructNames(n.fields))
    ensures var d := Decode(n);
      d.value.Object? && |d.value.properties| == |n.fields| &&
      forall i :: 0 <= i < |n.fields| ==>
        d.value.properties[i] == Property(n.fields[i].name, Decode(n.fields[i].value).value)
  {
    var ds := FieldDecodings(n);
    BuildObjectDistinct(StructNames(n.fields), Values(ds));
    DecodeOfStruct(n);
  }

  /** With distinct field names, a PDX instance decodes to an object with
      one property per field, in field order, named by the field and
      holding its decoding; `{}` when there are no fields. */
  lemma DecodePdxFields(n: NativeValue)
    requires n.PdxInstance? && Distinct(PdxNames(n.pdxFields))
    ensures var d := Decode(n);
      d.value.Object? && |d.value.properties| == |n.pdxFields| &&
      forall i :: 0 <= i < |n.pdxFields| ==>
        d.value.properties[i] == Property(n.pdxFields[i].name, Decode(n.pdxFields[i].value).value)
  {
    var fs := n.pdxFields;
    DecodeOfPdx(n);
    if fs != [] {
      var ds := PdxDecodings(n);
      DistinctPdxNames(fs);
      forall i | 0 <= i < |fs| ensures ds[i] == Decode(fs[i].value) {
        LookupDistinct(fs, i);
      }
      FieldProperties(fs, ds);
    }
  }

  /** If each decoding raises exactly when its source holds an unhandled
      kind, the sequence of them raises exactly when any source does. */
  lemma ThrownEmptyEach(ds: seq<Decoded>, ns: seq<NativeValue>)
    requires |ds| == |ns|
    requires forall i :: 0 <= i < |ds| ==> (ds[i].thrown == [] <==> !ContainsUnhandled(ns[i]))
    ensures Thrown(ds) == [] <==> forall i :: 0 <= i < |ns| ==> !ContainsUnhandled(ns[i])
  {
    ThrownEmpty(ds);
  }

  /** Decoding raises exactly when an unhandled kind occurs in the value,
      and a lone unhandled kind raises its own id. */
  lemma {:induction false} DecodeRaises(n: NativeValue)
    requires NativeWellFormed(n)
    ensures Decode(n).thrown == [] <==> !ContainsUnhandled(n)
    ensures n.Unhandled? ==> Decode(n).thrown == [n.typeId]
    decreases n, 1
  {
    match n
    case Struct(fs) =>
      var ds := FieldDecodings(n);
      var ns := seq(|fs|, i requires 0 <= i < |fs| => fs[i].value);
      forall i | 0 <= i < |fs| ensures ds[i].thrown == [] <==> !ContainsUnhandled(ns[i]) {
        DecodeRaises(fs[i].value);
      }
      ThrownEmptyEach(ds, ns);
    case CacheableObjectArray(es) =>
      DecodeArrayRaises(n);
    case CacheableVector(es) =>
      DecodeArrayRaises(n);
    case PdxInstance(fs) =>
      DecodePdxRaises(n);
    case _ =>
  }

  lemma {:induction false} DecodeArrayRaises(n: NativeValue)
    requires n.CacheableObjectArray? || n.CacheableVector?
    requires NativeWellFormed(n)
    ensures Decode(n).thrown == [] <==> !ContainsUnhandled(n)
    decreases n, 0
  {
    var ds := ItemDecodings(n);
    forall i | 0 <= i < |ds| ensures ds[i].thrown == [] <==> !ContainsUnhandled(Items(n)[i]) {
      DecodeRaises(Items(n)[i]);
    }
    ThrownEmptyEach(ds, Items(n));
  }

  lemma {:induction false} DecodePdxRaises(n: NativeValue)
    requires n.PdxInstance? && NativeWellFormed(n)
    ensures Decode(n).thrown == [] <==> !ContainsUnhandled(n)
    decreases n, 0
  {
    var fs := n.pdxFields;
    if fs != [] {
      var ds := PdxDecodings(n);
      var ns := seq(|fs|, i requires 0 <= i < |fs| => fs[i].value);
      forall i | 0 <= i < |fs| ensures ds[i].thrown == [] <==> !ContainsUnhandled(ns[i]) {
        LookupDistinct(fs, i);
        assert ds[i] == Decode(fs[i].value);
        assert NativeWellFormed(fs[i].value);
        DecodeRaises(fs[i].value);
      }
      ThrownEmptyEach(ds, ns);
      DecodeOfPdx(n);
      assert DecodePdx(n).thrown == Thrown(ds);
      PdxUnhandledFields(n, ns);
    }
  }

  lemma PdxUnhandledFields(n: NativeValue, ns: seq<NativeValue>)
    requires n.PdxInstance? && |ns| == |n.pdxFields|
    requires forall i :: 0 <= i < |ns| ==> ns[i] == n.pdxFields[i].value
    ensures ContainsUnhandled(n) <==> exists i :: 0 <= i < |ns| && ContainsUnhandled(ns[i])
  {
  }

  /** Setting distinct field names in order gives one property per field. */
  lemma FieldProperties(fs: seq<PdxField>, ds: seq<Decoded>)
    requires Distinct(PdxNames(fs)) && |ds| == |fs|
    ensures var ps := BuildObject(PdxNames(fs), Values(ds));
      |ps| == |fs| && forall i :: 0 <= i < |fs| ==> ps[i] == Property(fs[i].name, ds[i].value)
  {
    BuildObjectDistinct(PdxNames(fs), Values(ds));
  }

  lemma DistinctPdxNames(fs: seq<PdxField>)
    requires Distinct(PdxNames(fs))
    ensures forall a, b :: 0 <= a < b < |fs| ==> fs[a].name != fs[b].name
  {
    forall a, b | 0 <= a < b < |fs| ensures fs[a].name != fs[b].name {
      assert PdxNames(fs)[a] != PdxNames(fs)[b];
    }
  }

  /** With distinct field names, `getField` reads each field by its own name. */
  lemma LookupDistinct(fs: seq<PdxField>, i: nat)
    requires i < |fs|
    requires forall a, b :: 0 <= a < b < |fs| ==> fs[a].name != fs[b].name
    ensures Lookup(fs, i) == i
  {
  }

  /** One more `Set` on the object built so far. */
  lemma BuildObjectStep(names: seq<string>, values: seq<HostValue>, i: nat)
    requires |names| == |values| && i < |names|
    ensures BuildObject(names[..i + 1], values[..i + 1]) == SetProperty(BuildObject(names[..i], values[..i]), names[i], values[i])
  {
    assert names[..i + 1][..i] == names[..i];
    assert values[..i + 1][..i] == values[..i];
  }

  method V8ValueFromGemfire(valuePtr: NativeValue) returns (d: Decoded)
    ensures d == Decode(valuePtr)
    decreases valuePtr, 2
  {
    match valuePtr
    case NullPtr =>
      d := Decoded(Undefined, []);
    case CacheableASCIIString(cs) =>
      var units := UpToNul(AsciiUnits(cs), 0);
      d := Decoded(String(units), []);
    case CacheableString(w) =>
      var units := V8StringFromWstring(UpToNul(w, 0));
      d := Decoded(String(units), []);
    case CacheableBoolean(b) =>
      d := Decoded(Boolean(b), []);
    case CacheableDouble(x) =>
      d := Decoded(Number(x), []);
    case CacheableDate(ms) =>
      d := Decoded(Date(ToInt64(ms)), []);
    case CacheableUndefined =>
      d := Decoded(Null, []);
    case Struct(_) =>
      d := V8ObjectFromGemfireStruct(valuePtr);
    case CacheableObjectArray(_) =>
      d := DecodeElements(valuePtr);
    case CacheableVector(_) =>
      d := DecodeElements(valuePtr);
    case PdxInstance(_) =>
      d := FromPdxInstance(valuePtr);
    case Unhandled(t) =>
      d := Decoded(Undefined, [t]);
  }

  /** The loop shared by the object-array and vector branches: a fresh
      array of the same length, element i set to the decoding of item i. */
  method DecodeElements(valuePtr: NativeValue) returns (d: Decoded)
    requires valuePtr.CacheableObjectArray? || valuePtr.CacheableVector?
    ensures d == Decode(valuePtr)
    decreases valuePtr, 1
  {
    var es := Items(valuePtr);
    var length := |es|;
    var v8Array: seq<HostValue> := seq(length, _ => Undefined);
    var thrown: seq<int> := [];
    ghost var got: seq<Decoded> := [];
    for i := 0 to length
      invariant DecodedPrefix(es, got, v8Array, thrown) && |got| == i && |v8Array| == length
    {
      var element := V8ValueFromGemfire(es[i]);
      DecodedPrefixSet(es, got, v8Array, thrown, element);
      v8Array := v8Array[i := element.value];
      got := got + [element];
      thrown := thrown + element.thrown;
    }
    DecodedItems(valuePtr, got, v8Array, thrown);
    d := Decoded(Array(v8Array), thrown);
  }

  method V8ObjectFromGemfireStruct(structPtr: NativeValue) returns (d: Decoded)
    requires structPtr.Struct?
    ensures d == DecodeStruct(structPtr)
    decreases structPtr, 1
  {
    var fs := structPtr.fields;
    ghost var names := StructNames(fs);
    ghost var ds := FieldDecodings(structPtr);
    var v8Object: seq<Property> := [];
    var thrown: seq<int> := [];
    for i := 0 to |fs|
      invariant v8Object == BuildObject(names[..i], Values(ds)[..i])
      invariant thrown == Thrown(ds[..i])
    {
      var value := V8ValueFromGemfire(fs[i].value);
      BuildObjectStep(names, Values(ds), i);
      ThrownStep(ds, i);
      v8Object := SetProperty(v8Object, fs[i].name, value.value);
      thrown := thrown + value.thrown;
    }
    assert names[..|fs|] == names && Values(ds)[..|fs|] == Values(ds) && ds[..|fs|] == ds;
    d := Decoded(Object(PlainObject, v8Object), thrown);
  }

  method FromPdxInstance(pdxInstance: NativeValue) returns (d: Decoded)
    requires pdxInstance.PdxInstance?
    ensures d == DecodePdx(pdxInstance)
    decreases pdxInstance, 1
  {
    var fs := pdxInstance.pdxFields;
    if fs == [] {
      return Decoded(Object(PlainObject, []), []);
    }
    ghost var names := PdxNames(fs);
    ghost var ds := PdxDecodings(pdxInstance);
    var v8Object: seq<Property> := [];
    var thrown: seq<int> := [];
    for i := 0 to |fs|
      invariant v8Object == BuildObject(names[..i], Values(ds)[..i])
      invariant thrown == Thrown(ds[..i])
    {
      var key := fs[i].name;
      var value := V8ValueFromGemfire(fs[FieldIndex(fs, key)].value);
      assert value == ds[i];
      BuildObjectStep(names, Values(ds), i);
      ThrownStep(ds, i);
      v8Object := SetProperty(v8Object, key, value.value);
      thrown := thrown + value.thrown;
    }
    assert names[..|fs|] == names && Values(ds)[..|fs|] == Values(ds) && ds[..|fs|] == ds;
    d := Decoded(Object(PlainObject, v8Object), thrown);
  }

  /** `arrayFromSelectResults`: each result, in iterator order, decoded
      and appended at the array's current length.  The array is the one
      the decoder builds for a vector of the same results. */
  method ArrayFromSelectResults(selectResults: seq<NativeValue>) returns (d: Decoded)
    ensures d == Decode(CacheableVector(selectResults))
  {
    var v8Array: seq<HostValue> := [];
    var thrown: seq<int> := [];
    ghost var got: seq<Decoded> := [];
    var next := 0;
    while next < |selectResults|
      invariant DecodedPrefix(selectResults, got, v8Array, thrown) && |got| == |v8Array| == next
    {
      var result := selectResults[next];
      next := next + 1;
      var v8Value := V8ValueFromGemfire(result);
      DecodedPrefixAppend(selectResults, got, v8Array, thrown, v8Value);
      got := got + [v8Value];
      v8Array := v8Array + [v8Value.value];
      thrown := thrown + v8Value.thrown;
    }
    DecodedItems(CacheableVector(selectResults), got, v8Array, thrown);
    d := Decoded(Array(v8Array), thrown);
  }
  // ---------------------------------------------------------------------
  // Round trips.

  /** What the host reads back after storing `h`: strings and property
      names cut at the first NUL, functions and errors turned into plain
      objects of their own properties, recursively. */
  function RoundTripped(h: HostValue): (r: HostValue)
    decreases h
  {
    match h
    case String(u) => String(UpToNul(u, 0))
    case Array(es) => Array(seq(|es|, i requires 0 <= i < |es| => RoundTripped(es[i])))
    case Object(_, ps) =>
      Object(PlainObject, seq(|ps|, i requires 0 <= i < |ps| => Property(KeyCopy(ps[i].name), RoundTripped(ps[i].value))))
    case _ => h
  }

  /** Data the codec carries without loss: NUL-free strings, plain objects
      with NUL-free property names and arrays of such data, and every
      other value. */
  predicate Plain(h: HostValue)
    decreases h
  {
    match h
    case String(u) => 0 !in u
    case Array(es) => forall i :: 0 <= i < |es| ==> Plain(es[i])
    case Object(k, ps) => k == PlainObject && forall i :: 0 <= i < |ps| ==> '\0' !in ps[i].name && Plain(ps[i].value)
    case _ => true
  }

  function Zip(names: seq<string>, values: seq<HostValue>): (ps: seq<Property>)
    requires |names| == |values|
    ensures |ps| == |names| && forall i :: 0 <= i < |ps| ==> ps[i] == Property(names[i], values[i])
  {
    seq(|names|, i requires 0 <= i < |names| => Property(names[i], values[i]))
  }

  /** Setting a property the object does not have appends it. */
  lemma {:induction false} SetPropertyFresh(ps: seq<Property>, name: string, v: HostValue)
    requires forall i :: 0 <= i < |ps| ==> ps[i].name != name
    ensures SetProperty(ps, name, v) == ps + [Property(name, v)]
  {
    if ps != [] {
      SetPropertyFresh(ps[1..], name, v);
    }
  }

  lemma ZipSnoc(names: seq<string>, values: seq<HostValue>)
    requires |names| == |values| && names != []
    ensures Zip(names, values) == Zip(names[..|names| - 1], values[..|names| - 1]) + [Property(names[|names| - 1], values[|names| - 1])]
  {
    var k := |names| - 1;
    var zs := Zip(names[..k], values[..k]) + [Property(names[k], values[k])];
    forall i | 0 <= i < |names| ensures zs[i] == Zip(names, values)[i] {
      if i < k {
        assert zs[i] == Zip(names[..k], values[..k])[i];
      }
    }
  }

  /** Setting distinct names in order gives the properties in that order. */
  lemma {:induction false} BuildObjectDistinct(names: seq<string>, values: seq<HostValue>)
    requires |names| == |values| && Distinct(names)
    ensures BuildObject(names, values) == Zip(names, values)
  {
    if names != [] {
      var k := |names| - 1;
      var zs := Zip(names[..k], values[..k]);
      assert Distinct(names[..k]);
      BuildObjectDistinct(names[..k], values[..k]);
      assert BuildObject(names, values) == SetProperty(zs, names[k], values[k]);
      assert forall i :: 0 <= i < |zs| ==> zs[i].name != names[k];
      SetPropertyFresh(zs, names[k], values[k]);
      ZipSnoc(names, values);
    }
  }

  /** Storing a well-formed host value and reading it back raises nothing
      and yields `RoundTripped(h)`. */
  lemma {:induction false} RoundTrip(h: HostValue)
    requires WellFormed(h)
    ensures Decode(Encode(h)) == Decoded(RoundTripped(h), [])
    decreases h
  {
    match h
    case String(u) =>
      UpToNulIdempotent(Widen(u), 0);
      StringRoundTrip(u);
    case Date(t) =>
      DateRoundTrip(t);
    case Array(es) =>
      RoundTripArray(h);
    case Object(_, ps) =>
      RoundTripObject(h);
    case _ =>
  }

  lemma {:induction false} RoundTripArray(h: HostValue)
    requires h.Array? && WellFormed(h)
    ensures Decode(Encode(h)) == Decoded(RoundTripped(h), [])
    decreases h, 0
  {
    var es := h.elements;
    var n := Encode(h);
    var ds := ItemDecodings(n);
    forall i | 0 <= i < |es| ensures ds[i] == Decoded(RoundTripped(es[i]), []) {
      RoundTrip(es[i]);
    }
    ThrownEmpty(ds);
    assert Values(ds) == RoundTripped(h).elements;
  }

  lemma {:induction false} RoundTripObject(h: HostValue)
    requires h.Object? && WellFormed(h)
    ensures Decode(Encode(h)) == Decoded(RoundTripped(h), [])
    decreases h, 1
  {
    var ps := h.properties;
    var n := EncodeObject(h);
    assert Encode(h) == n;
    var fs := n.pdxFields;
    var r := RoundTripped(h);
    assert r.Object? && r.kind == PlainObject && |r.properties| == |ps|;
    DecodeOfPdx(n);
    if fs == [] {
      assert r.properties == [];
    } else {
      var ds := PdxDecodings(n);
      RoundTripFields(h, ds);
      ThrownEmpty(ds);
      RoundTripProperties(h, ds);
      assert PdxNames(fs) == KeyNames(ps);
      assert DecodePdx(n) == Decoded(Object(PlainObject, BuildObject(PdxNames(fs), Values(ds))), Thrown(ds));
    }
  }

  /** One step of `Decode` for each compound kind. */
  lemma DecodeOfArray(n: NativeValue)
    requires n.CacheableObjectArray? || n.CacheableVector?
    ensures Decode(n) == DecodeArray(n)
  {
  }

  lemma DecodeOfStruct(n: NativeValue)
    requires n.Struct?
    ensures Decode(n) == DecodeStruct(n)
  {
  }

  lemma DecodeOfPdx(n: NativeValue)
    requires n.PdxInstance?
    ensures Decode(n) == DecodePdx(n)
  {
  }

  /** Each field of an encoded object decodes to the round trip of its
      property's value. */
  lemma {:induction false} RoundTripFields(h: HostValue, ds: seq<Decoded>)
    requires h.Object? && WellFormed(h) && ds == PdxDecodings(EncodeObject(h))
    ensures |ds| == |h.properties|
    ensures forall i :: 0 <= i < |ds| ==> ds[i] == Decoded(RoundTripped(h.properties[i].value), [])
    decreases h, 0
  {
    var ps := h.properties;
    var fs := EncodeObject(h).pdxFields;
    KeyNamesDistinct(h);
    forall i | 0 <= i < |fs| ensures ds[i] == Decoded(RoundTripped(ps[i].value), []) {
      LookupDistinct(fs, i);
      RoundTrip(ps[i].value);
    }
  }

  /** Distinct copied names give an encoded object distinct field names. */
  lemma KeyNamesDistinct(h: HostValue)
    requires h.Object? && Distinct(KeyNames(h.properties))
    ensures forall a, b :: 0 <= a < b < |EncodeObject(h).pdxFields| ==>
      EncodeObject(h).pdxFields[a].name != EncodeObject(h).pdxFields[b].name
  {
    var fs := EncodeObject(h).pdxFields;
    forall a, b | 0 <= a < b < |fs| ensures fs[a].name != fs[b].name {
      assert fs[a].name == KeyNames(h.properties)[a];
      assert fs[b].name == KeyNames(h.properties)[b];
    }
  }

  /** Setting the copied names to the round-tripped values builds the
      round-tripped object's properties. */
  lemma RoundTripProperties(h: HostValue, ds: seq<Decoded>)
    requires h.Object? && Distinct(KeyNames(h.properties)) && |ds| == |h.properties|
    requires forall i :: 0 <= i < |ds| ==> ds[i] == Decoded(RoundTripped(h.properties[i].value), [])
    ensures BuildObject(KeyNames(h.properties), Values(ds)) == RoundTripped(h).properties
  {
    var ps := h.properties;
    BuildObjectDistinct(KeyNames(ps), Values(ds));
    var z := Zip(KeyNames(ps), Values(ds));
    var rp := RoundTrippedObject(h);
    assert |z| == |rp|;
    forall i | 0 <= i < |z| ensures z[i] == rp[i] {
      assert z[i] == Property(KeyNames(ps)[i], Values(ds)[i]);
    }
  }

  /** An object comes back as a plain object of its properties, each under
      the copied name with its value round-tripped. */
  lemma RoundTrippedObject(h: HostValue) returns (rp: seq<Property>)
    requires h.Object?
    ensures rp == RoundTripped(h).properties && |rp| == |h.properties|
    ensures forall i :: 0 <= i < |rp| ==> rp[i] == Property(KeyCopy(h.properties[i].name), RoundTripped(h.properties[i].value))
  {
    rp := RoundTripped(h).properties;
  }

  /** A host value survives the cache unchanged exactly when it is plain
      data. */
  lemma {:induction false} RoundTrippedIdentity(h: HostValue)
    ensures RoundTripped(h) == h <==> Plain(h)
    decreases h
  {
    match h
    case String(u) =>
      if 0 !in u {
        UpToNulOfFree(u, 0);
      }
    case Array(es) =>
      forall i | 0 <= i < |es| ensures RoundTripped(es[i]) == es[i] <==> Plain(es[i]) {
        RoundTrippedIdentity(es[i]);
      }
      if RoundTripped(h) == h {
        forall i | 0 <= i < |es| ensures Plain(es[i]) {
          assert RoundTripped(h).elements[i] == RoundTripped(es[i]);
        }
      }
    case Object(k, ps) =>
      forall i | 0 <= i < |ps| ensures RoundTripped(ps[i].value) == ps[i].value <==> Plain(ps[i].value) {
        RoundTrippedIdentity(ps[i].value);
      }
      forall i | 0 <= i < |ps| ensures KeyCopy(ps[i].name) == ps[i].name <==> '\0' !in ps[i].name {
        KeyCopyCut(ps[i].name);
      }
      if RoundTripped(h) == h {
        forall i | 0 <= i < |ps| ensures '\0' !in ps[i].name && Plain(ps[i].value) {
          assert RoundTripped(h).properties[i] == Property(KeyCopy(ps[i].name), RoundTripped(ps[i].value));
        }
      }
    case _ =>
  }
}
