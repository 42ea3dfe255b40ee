/** `KeyPathMapper<Value>`: a one-field struct that makes a value addressable
    by key paths. Key paths over mappers take and return mappers by value,
    so the struct is the datatype `Mapper<V>`; a `var` holding a mapper, which
    the mutating members update in place, is the class `KeyPathMapper<V>`. */
module KeyPathMappers {
  import opened Lenses

  /** The struct's value: wrapping `init(_:)` and unwrapping `.value`.
      Its synthesised `Equatable` conformance is datatype equality. */
  datatype Mapper<V> = Mapper(value: V)

  /** Both the stored property `\.value` and `subscript()`: a key path from a
      mapper to the value it holds. */
  function ValueLens<V>(): Lens<Mapper<V>, V> {
    Lens((m: Mapper<V>) => m.value, (m: Mapper<V>, v: V) => Mapper(v))
  }

  /** The kind of `\.[map: keyPath]` and `\.[mapPath: keyPath]`: each
      subscript has a read-only overload and a writable one with a mutating
      setter, and a reference-writable argument selects the writable one. */
  function SubscriptKind(k: Kind): (r: Kind)
    ensures r.CanWrite() <==> k.CanWrite()
    ensures !r.ReferenceWritable?
  {
    if k.CanWrite() then Writable else ReadOnly
  }

  /** `subscript(map:)`: the key path applied to the mapper itself. It is
      writable exactly when the key path is, reads what the key path reads,
      writes what it writes, and so keeps each lens law the key path obeys. */
  function MapSubscript<V(!new), T(!new)>(path: Path<Mapper<V>, T>): (q: Path<Mapper<V>, T>)
    ensures q.kind == SubscriptKind(path.kind)
    ensures forall m :: q.lens.get(m) == path.lens.get(m)
    ensures forall m, t :: q.lens.put(m, t) == path.lens.put(m, t)
    ensures GetPut(path.lens) ==> GetPut(q.lens)
    ensures PutGet(path.lens) ==> PutGet(q.lens)
    ensures PutPut(path.lens) ==> PutPut(q.lens)
  {
    Path(SubscriptKind(path.kind), Lens((m: Mapper<V>) => path.lens.get(m),
                                        (m: Mapper<V>, t: T) => path.lens.put(m, t)))
  }

  /** Wrapping then unwrapping gives the value back, and a mapper is
      determined by its value. */
  lemma WrapRoundTrip<V>(v: V, m: Mapper<V>)
    ensures Mapper(v).value == v
    ensures Mapper(m.value) == m
  {
  }

  /** Two mappers are equal exactly when their values are. */
  lemma MapperEquality<V>(a: Mapper<V>, b: Mapper<V>)
    ensures a == b <==> a.value == b.value
  {
  }

  /** `subscript()` is a lawful lens whose write replaces the stored value. */
  lemma ValueLensLaws<V(!new)>()
    ensures GetPut(ValueLens<V>()) && PutGet(ValueLens<V>()) && PutPut(ValueLens<V>())
  {
  }

  /** Reading or writing through `subscript(map:)` is reading or writing
      through the key path directly. */
  lemma MapSubscriptAgrees<V(!new), T(!new)>(path: Path<Mapper<V>, T>, m: Mapper<V>, t: T)
    ensures Read(MapSubscript(path), m) == Read(path, m)
    ensures path.kind.CanWrite() ==> Write(MapSubscript(path), m, t) == Write(path, m, t)
  {
  }

  /** A `var` of type `KeyPathMapper<V>`. */
  class KeyPathMapper<V(!new)> {
    var value: V

    /** `init(_ value:)` */
    constructor (value: V)
      ensures this.value == value
    {
      this.value := value;
    }

    /** The struct value currently held. */
    function Snapshot(): Mapper<V>
      reads this
    {
      Mapper(value)
    }

    /** The getter of `subscript()`. */
    function Subscript(): V
      reads this
    {
      ValueLens<V>().get(Snapshot())
    }

    /** The setter of `subscript()`: the stored value is replaced, so a read
        afterwards returns the new value. */
    method SetSubscript(newValue: V)
      modifies this
      ensures Snapshot() == ValueLens<V>().put(old(Snapshot()), newValue)
      ensures Subscript() == newValue
    {
      value := newValue;
    }

    /** `mutating func callAsFunction(_:)`: sets the value and nothing else. */
    method CallAsFunction(v: V)
      modifies this
      ensures value == v
    {
      value := v;
    }

    /** The getter of `subscript(map:)`. */
    function Map<T(!new)>(path: Path<Mapper<V>, T>): T
      reads this
    {
      Read(MapSubscript(path), Snapshot())
    }

    /** The setter of `subscript(map:)`: the mapper is written through the key
        path; for a key path obeying put-get, a read afterwards returns the
        written value. */
    method SetMap<T(!new)>(path: Path<Mapper<V>, T>, newValue: T)
      requires path.kind.CanWrite()
      modifies this
      ensures Snapshot() == Write(path, old(Snapshot()), newValue)
      ensures PutGet(path.lens) ==> Map(path) == newValue
    {
      value := Write(MapSubscript(path), Snapshot(), newValue).value;
    }
  }
}
