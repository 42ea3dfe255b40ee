/** The hashing wrappers the core passes default values through.

    `Hashed<T>` comes from a package outside this model; only its
    `wrappedValue` matters to the key paths, and its hash is an opaque
    identity token. `_ForceHashable<Value>` pairs a value with a hashing
    closure; that closure is again an opaque token here. Equality and hashing
    of these wrappers are not modelled. */
module Hashing {
  import opened Lenses

  /** An opaque identity used only for hashing, such as `AnyHashable(keyPath)`. */
  datatype HashToken = HashToken(id: int)

  /** `Hashed<T>`: a value and the token it is hashed by. */
  datatype Hashed<T> = Hashed(wrappedValue: T, token: HashToken)

  /** `_ForceHashable<Value>`: a value and the token its hash is built from. */
  datatype ForceHashable<T> = ForceHashable(value: T, token: HashToken)

  /** The writable key path `\Hashed<T>.wrappedValue`: the token is kept when
      the wrapped value is replaced. */
  function WrappedValueLens<T>(): Lens<Hashed<T>, T> {
    Lens((h: Hashed<T>) => h.wrappedValue, (h: Hashed<T>, v: T) => h.(wrappedValue := v))
  }

  /** `\Hashed<T>.wrappedValue` is a lawful lens. */
  lemma WrappedValueLaws<T(!new)>()
    ensures GetPut(WrappedValueLens<T>()) && PutGet(WrappedValueLens<T>()) && PutPut(WrappedValueLens<T>())
  {
  }
}
